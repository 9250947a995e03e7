/** The daemon's ingest protocol as a state machine: N projects, each with its
    own guard and its own exclusive ingest chain, sharing one work limiter
    (daemon/src/cli/daemon.ts). One step is the code between two awaits, and a
    run takes the steps of all projects in any order. */
module IngestProtocol {
  import opened Common
  import G = IngestGuard

  // ---------------------------------------------------------------- one project

  /** A body submitted to the chain: a guarded full run, or any other ingest work. */
  datatype Kind = Full(id: nat) | Other

  datatype Phase = Queued | Working | Parked | Woken | Holding | Closing | Settled(ok: bool)

  /** `after` is the job whose settling lets this one begin: the promise that
      `ingestChain.then` was called on. */
  datatype Job = Job(kind: Kind, after: Option<nat>, phase: Phase)

  datatype RunPhase = Sleeping | Chained(job: nat) | Begun(job: nat, admitted: bool) | Ended(of: Option<nat>)

  datatype Request = Request(at: nat, id: nat)

  /** `runs[id - 1]` is the state of full run `id`. `log` and `begun` record at
      which step a request was answered and a run began. */
  datatype Project = Project(
    guard: G.State,
    jobs: seq<Job>,
    tail: Option<nat>,
    inFlight: bool,
    runs: seq<RunPhase>,
    log: seq<Request>,
    begun: map<nat, nat>)

  const FRESH_PROJECT := Project(G.INITIAL, [], None, false, [], [], map[])

  function Submit(p: Project, kind: Kind): Project {
    p.(jobs := p.jobs + [Job(kind, p.tail, Queued)], tail := Some(|p.jobs|))
  }

  predicate HasRunAt(runs: seq<RunPhase>, id: nat) {
    1 <= id <= |runs|
  }

  predicate HasRun(p: Project, id: nat) {
    HasRunAt(p.runs, id)
  }

  function EnterChain(p: Project, id: nat): Project
    requires HasRun(p, id)
  {
    Submit(p, Full(id)).(runs := p.runs[id - 1 := Chained(|p.jobs|)])
  }

  function GiveUp(p: Project, id: nat): Project
    requires HasRun(p, id)
  {
    p.(guard := G.ClearSlot(p.guard, id), runs := p.runs[id - 1 := Ended(None)])
  }

  /** What `runFull` does before its first await. */
  function Launch(c: G.Limits, p: Project, id: nat, t: int): Project
    requires HasRun(p, id)
  {
    if p.guard.tripped.Some? then GiveUp(p, id)
    else if G.TooSoon(c, p.guard, t) then p
    else EnterChain(p, id)
  }

  function RequestFull(c: G.Limits, p: Project, t: int, tick: nat): Project {
    var (g, id) := G.Request(p.guard);
    var p' := p.(guard := g, log := p.log + [Request(tick, id)]);
    if p.guard.queued.Some? then p'
    else
      var p'' := p'.(runs := p.runs + [Sleeping]);
      if HasRun(p'', id) then Launch(c, p'', id, t) else p''
  }

  predicate CanWake(p: Project, id: nat) {
    HasRun(p, id) && p.runs[id - 1] == Sleeping
  }

  function Wake(p: Project, id: nat): Project
    requires CanWake(p, id)
  {
    if p.guard.tripped.Some? then GiveUp(p, id) else EnterChain(p, id)
  }

  predicate CanBegin(p: Project, j: nat) {
    && j < |p.jobs| && p.jobs[j].phase == Queued
    && (var a := p.jobs[j].after; a.Some? ==> a.value < |p.jobs| && p.jobs[a.value].phase.Settled?)
    && (p.jobs[j].kind.Full? ==> HasRun(p, p.jobs[j].kind.id))
  }

  function Begin(c: G.Limits, p: Project, j: nat, t: int, tick: nat): Project
    requires CanBegin(p, j)
  {
    if p.jobs[j].kind.Full? then BeginFull(c, p, j, p.jobs[j].kind.id, t, tick)
    else SetPhase(p, j, Working).(inFlight := true)
  }

  /** The body of a full run: clear the slot, then ask the guard. */
  function BeginFull(c: G.Limits, p: Project, j: nat, id: nat, t: int, tick: nat): Project
    requires j < |p.jobs| && HasRun(p, id)
  {
    var a := G.Admit(c, G.ClearSlot(p.guard, id), t);
    SetPhase(p, j, if a.1 then Working else Closing).(
      inFlight := true, guard := a.0, runs := p.runs[id - 1 := Begun(j, a.1)], begun := p.begun[id := tick])
  }

  function SetPhase(p: Project, j: nat, ph: Phase): Project
    requires j < |p.jobs|
  {
    p.(jobs := p.jobs[j := p.jobs[j].(phase := ph)])
  }

  predicate CanFinish(p: Project, j: nat) {
    j < |p.jobs| && (p.jobs[j].phase == Closing || p.jobs[j] == Job(Other, p.jobs[j].after, Working))
  }

  function Finish(p: Project, j: nat, ok: bool): Project
    requires CanFinish(p, j)
  {
    SetPhase(p, j, Settled(ok)).(inFlight := false)
  }

  predicate CanEnd(p: Project, id: nat) {
    && HasRun(p, id) && p.runs[id - 1].Begun?
    && p.runs[id - 1].job < |p.jobs| && p.jobs[p.runs[id - 1].job].phase.Settled?
  }

  /** Failures always count, successes only if the run was admitted; then the slot is cleared. */
  function EndGuard(c: G.Limits, g: G.State, ok: bool, admitted: bool, id: nat): G.State {
    G.ClearSlot(if !ok then G.Note(c, g, true) else if admitted then G.Note(c, g, false) else g, id)
  }

  /** The rest of `runFull` once its chain body settled: record the outcome, clear the slot. */
  function EndRun(c: G.Limits, p: Project, id: nat): Project
    requires CanEnd(p, id)
  {
    var r := p.runs[id - 1];
    p.(guard := EndGuard(c, p.guard, p.jobs[r.job].phase.ok, r.admitted, id), runs := p.runs[id - 1 := Ended(Some(r.job))])
  }

  // ---------------------------------------------------------------- what one project keeps

  predicate Active(ph: Phase) {
    ph != Queued && !ph.Settled?
  }

  /** The promise links follow submission order; a job begins only when every
      earlier one has settled, and the status marker tells whether one is active. */
  ghost predicate ChainInv(jobs: seq<Job>, tail: Option<nat>, inFlight: bool) {
    && tail == (if jobs == [] then None else Some(|jobs| - 1))
    && (forall j :: 0 <= j < |jobs| ==> jobs[j].after == (if j == 0 then None else Some(j - 1)))
    && (forall i, j :: 0 <= i < j < |jobs| && jobs[j].phase != Queued ==> jobs[i].phase.Settled?)
    && (inFlight <==> exists j :: 0 <= j < |jobs| && Active(jobs[j].phase))
  }

  /** The job a full run was submitted as, once it has entered the chain. */
  function JobOf(r: RunPhase): Option<nat> {
    match r
    case Sleeping => None
    case Chained(j) => Some(j)
    case Begun(j, _) => Some(j)
    case Ended(of) => of
  }

  predicate Fits(r: RunPhase, ph: Phase) {
    match r
    case Sleeping => true
    case Chained(_) => ph == Queued
    case Begun(_, _) => ph != Queued
    case Ended(_) => ph.Settled?
  }

  predicate Pending(r: RunPhase) {
    r.Sleeping? || r.Chained?
  }

  predicate HasBegun(r: RunPhase) {
    r.Begun? || (r.Ended? && r.of.Some?)
  }

  /** Full runs and their jobs name each other and agree on how far they are. */
  ghost predicate Linked(jobs: seq<Job>, runs: seq<RunPhase>) {
    && (forall k :: 0 <= k < |runs| && JobOf(runs[k]).Some? ==> JobOf(runs[k]).value < |jobs|)
    && (forall j :: 0 <= j < |jobs| && jobs[j].kind.Full? ==> 1 <= jobs[j].kind.id <= |runs|)
    && (forall k, j: nat :: 0 <= k < |runs| && j < |jobs| ==>
          && (JobOf(runs[k]) == Some(j) <==> jobs[j].kind == Full(k + 1))
          && (JobOf(runs[k]) == Some(j) ==> Fits(runs[k], jobs[j].phase)))
  }

  /** The slot holds exactly the run that has been requested and has not begun. */
  ghost predicate SlotInv(queued: Option<nat>, jobs: seq<Job>, runs: seq<RunPhase>, begun: map<nat, nat>) {
    && Linked(jobs, runs)
    && (queued.Some? ==> 1 <= queued.value <= |runs| && Pending(runs[queued.value - 1]))
    && (forall k :: 0 <= k < |runs| ==>
          && (Pending(runs[k]) ==> queued == Some(k + 1))
          && (HasBegun(runs[k]) <==> k + 1 in begun))
  }

  /** Every answered request names a run that began later, if at all. */
  ghost predicate LogInv(n: nat, log: seq<Request>, begun: map<nat, nat>, tick: nat) {
    && (forall i :: 0 <= i < |log| ==>
          && 1 <= log[i].id <= n && log[i].at < tick
          && (log[i].id in begun ==> log[i].at < begun[log[i].id]))
    && (forall id :: id in begun ==> 1 <= id <= n && begun[id] < tick)
  }

  ghost predicate ProjectInv(c: G.Limits, p: Project, tick: nat) {
    && ChainInv(p.jobs, p.tail, p.inFlight)
    && SlotInv(p.guard.queued, p.jobs, p.runs, p.begun)
    && LogInv(|p.runs|, p.log, p.begun, tick)
    && p.guard.runSeq == |p.runs|
    && G.Inv(c, p.guard)
  }

  lemma SubmitKeepsChain(jobs: seq<Job>, tail: Option<nat>, inFlight: bool, kind: Kind)
    requires ChainInv(jobs, tail, inFlight)
    ensures ChainInv(jobs + [Job(kind, tail, Queued)], Some(|jobs|), inFlight)
  {
    var jobs' := jobs + [Job(kind, tail, Queued)];
    if inFlight {
      var j :| 0 <= j < |jobs| && Active(jobs[j].phase);
      assert Active(jobs'[j].phase);
    } else {
      assert forall j :: 0 <= j < |jobs| ==> jobs'[j] == jobs[j] && !Active(jobs[j].phase);
    }
  }

  lemma SubmitOtherKeepsSlot(jobs: seq<Job>, runs: seq<RunPhase>, job: Job)
    requires Linked(jobs, runs) && job.kind == Other
    ensures Linked(jobs + [job], runs)
  {
  }

  lemma SubmitFullKeepsSlot(queued: Option<nat>, jobs: seq<Job>, runs: seq<RunPhase>, begun: map<nat, nat>, job: Job, id: nat)
    requires SlotInv(queued, jobs, runs, begun) && job.kind == Full(id) && job.phase == Queued
    requires HasRunAt(runs, id) && runs[id - 1] == Sleeping
    ensures SlotInv(queued, jobs + [job], runs[id - 1 := Chained(|jobs|)], begun)
  {
  }

  lemma SubmitKeepsInv(c: G.Limits, p: Project, tick: nat)
    requires ProjectInv(c, p, tick)
    ensures ProjectInv(c, Submit(p, Other), tick)
  {
    SubmitKeepsChain(p.jobs, p.tail, p.inFlight, Other);
    SubmitOtherKeepsSlot(p.jobs, p.runs, Job(Other, p.tail, Queued));
  }

  lemma EnterChainKeepsInv(c: G.Limits, p: Project, id: nat, tick: nat)
    requires ProjectInv(c, p, tick) && CanWake(p, id)
    ensures ProjectInv(c, EnterChain(p, id), tick)
  {
    SubmitKeepsChain(p.jobs, p.tail, p.inFlight, Full(id));
    SubmitFullKeepsSlot(p.guard.queued, p.jobs, p.runs, p.begun, Job(Full(id), p.tail, Queued), id);
  }

  lemma GiveUpKeepsSlot(queued: Option<nat>, jobs: seq<Job>, runs: seq<RunPhase>, begun: map<nat, nat>, id: nat)
    requires SlotInv(queued, jobs, runs, begun) && HasRunAt(runs, id) && runs[id - 1] == Sleeping
    ensures queued == Some(id) && SlotInv(None, jobs, runs[id - 1 := Ended(None)], begun)
  {
  }

  lemma GiveUpKeepsInv(c: G.Limits, p: Project, id: nat, tick: nat)
    requires ProjectInv(c, p, tick) && CanWake(p, id)
    ensures ProjectInv(c, GiveUp(p, id), tick)
  {
    GiveUpKeepsSlot(p.guard.queued, p.jobs, p.runs, p.begun, id);
  }

  lemma NewRunKeepsSlot(jobs: seq<Job>, runs: seq<RunPhase>, begun: map<nat, nat>)
    requires SlotInv(None, jobs, runs, begun) && |runs| + 1 !in begun
    ensures SlotInv(Some(|runs| + 1), jobs, runs + [Sleeping], begun)
  {
  }

  lemma NewRequestKeepsLog(n: nat, n': nat, log: seq<Request>, begun: map<nat, nat>, tick: nat, id: nat)
    requires LogInv(n, log, begun, tick) && n <= n' && 1 <= id <= n' && id !in begun
    ensures LogInv(n', log + [Request(tick, id)], begun, tick + 1)
  {
  }

  lemma NewRunKeepsInv(c: G.Limits, p: Project, tick: nat)
    requires ProjectInv(c, p, tick) && p.guard.queued.None?
    ensures var (g, id) := G.TakeSlot(p.guard);
      ProjectInv(c, p.(guard := g, log := p.log + [Request(tick, id)], runs := p.runs + [Sleeping]), tick + 1)
  {
    NewRunKeepsSlot(p.jobs, p.runs, p.begun);
    NewRequestKeepsLog(|p.runs|, |p.runs| + 1, p.log, p.begun, tick, |p.runs| + 1);
  }

  lemma RequestKeepsInv(c: G.Limits, p: Project, t: int, tick: nat)
    requires ProjectInv(c, p, tick)
    ensures ProjectInv(c, RequestFull(c, p, t, tick), tick + 1)
  {
    if p.guard.queued.Some? {
      NewRequestKeepsLog(|p.runs|, |p.runs|, p.log, p.begun, tick, p.guard.queued.value);
    } else {
      NewRunKeepsInv(c, p, tick);
      var (g, id) := G.TakeSlot(p.guard);
      var p' := p.(guard := g, log := p.log + [Request(tick, id)], runs := p.runs + [Sleeping]);
      if p.guard.tripped.Some? {
        GiveUpKeepsInv(c, p', id, tick + 1);
      } else if !G.TooSoon(c, g, t) {
        EnterChainKeepsInv(c, p', id, tick + 1);
      }
    }
  }

  lemma SetPhaseKeepsChain(jobs: seq<Job>, tail: Option<nat>, inFlight: bool, j: nat, ph: Phase)
    requires ChainInv(jobs, tail, inFlight) && j < |jobs|
    requires ph != Queued && (j > 0 ==> jobs[j - 1].phase.Settled?)
    requires jobs[j].phase.Settled? ==> ph.Settled?
    requires forall i :: j < i < |jobs| ==> jobs[i].phase == Queued
    ensures ChainInv(jobs[j := jobs[j].(phase := ph)], tail, Active(ph))
  {
    var jobs' := jobs[j := jobs[j].(phase := ph)];
    assert forall i :: 0 <= i < j ==> jobs[i].phase.Settled? && jobs'[i] == jobs[i];
    if Active(ph) {
      assert Active(jobs'[j].phase);
    }
  }

  lemma SetPhaseKeepsSlot(jobs: seq<Job>, runs: seq<RunPhase>, j: nat, ph: Phase)
    requires Linked(jobs, runs) && j < |jobs|
    requires jobs[j].kind == Other || (jobs[j].phase != Queued && ph != Queued && !jobs[j].phase.Settled?)
    ensures Linked(jobs[j := jobs[j].(phase := ph)], runs)
  {
  }

  lemma ChainedIsQueued(queued: Option<nat>, jobs: seq<Job>, runs: seq<RunPhase>, begun: map<nat, nat>, j: nat)
    requires SlotInv(queued, jobs, runs, begun) && j < |jobs|
    requires jobs[j].phase == Queued && jobs[j].kind.Full?
    ensures var id := jobs[j].kind.id;
      queued == Some(id) && id !in begun && HasRunAt(runs, id) && runs[id - 1] == Chained(j)
  {
    var id := jobs[j].kind.id;
    assert JobOf(runs[id - 1]) == Some(j);
  }

  lemma BeginFullKeepsSlot(queued: Option<nat>, jobs: seq<Job>, runs: seq<RunPhase>, begun: map<nat, nat>,
                           j: nat, id: nat, ph: Phase, ok: bool, tick: nat)
    requires SlotInv(queued, jobs, runs, begun) && j < |jobs| && ph != Queued
    requires jobs[j].phase == Queued && jobs[j].kind == Full(id)
    ensures HasRunAt(runs, id)
    ensures SlotInv(None, jobs[j := jobs[j].(phase := ph)], runs[id - 1 := Begun(j, ok)], begun[id := tick])
  {
    ChainedIsQueued(queued, jobs, runs, begun, j);
    assert Linked(jobs[j := jobs[j].(phase := ph)], runs[id - 1 := Begun(j, ok)]);
  }

  lemma BeginKeepsChain(c: G.Limits, p: Project, j: nat, t: int, tick: nat)
    requires ChainInv(p.jobs, p.tail, p.inFlight) && CanBegin(p, j)
    ensures var p' := Begin(c, p, j, t, tick); ChainInv(p'.jobs, p'.tail, p'.inFlight)
  {
    assert forall i :: j < i < |p.jobs| ==> p.jobs[i].phase == Queued;
    SetPhaseKeepsChain(p.jobs, p.tail, p.inFlight, j, Begin(c, p, j, t, tick).jobs[j].phase);
  }

  lemma BeganAfterRequests(n: nat, log: seq<Request>, begun: map<nat, nat>, tick: nat, id: nat)
    requires LogInv(n, log, begun, tick) && 1 <= id <= n && id !in begun
    ensures LogInv(n, log, begun[id := tick], tick + 1)
  {
  }

  lemma BeginFullKeepsInv(c: G.Limits, p: Project, j: nat, id: nat, t: int, tick: nat)
    requires ProjectInv(c, p, tick) && CanBegin(p, j) && p.jobs[j].kind == Full(id)
    ensures var p' := BeginFull(c, p, j, id, t, tick);
      && SlotInv(p'.guard.queued, p'.jobs, p'.runs, p'.begun)
      && LogInv(|p'.runs|, p'.log, p'.begun, tick + 1)
  {
    var a := G.Admit(c, G.ClearSlot(p.guard, id), t);
    ChainedIsQueued(p.guard.queued, p.jobs, p.runs, p.begun, j);
    assert a.0.queued == None;
    BeginFullKeepsSlot(p.guard.queued, p.jobs, p.runs, p.begun, j, id, if a.1 then Working else Closing, a.1, tick);
    BeganAfterRequests(|p.runs|, p.log, p.begun, tick, id);
  }

  lemma BeginFullKeepsGuard(c: G.Limits, p: Project, j: nat, id: nat, t: int, tick: nat)
    requires j < |p.jobs| && HasRun(p, id) && G.Inv(c, p.guard)
    ensures var p' := BeginFull(c, p, j, id, t, tick);
      G.Inv(c, p'.guard) && p'.guard.runSeq == p.guard.runSeq
  {
    G.AdmitKeepsInv(c, G.ClearSlot(p.guard, id), t);
  }

  lemma BeginKeepsInv(c: G.Limits, p: Project, j: nat, t: int, tick: nat)
    requires ProjectInv(c, p, tick) && CanBegin(p, j)
    ensures ProjectInv(c, Begin(c, p, j, t, tick), tick + 1)
  {
    BeginKeepsChain(c, p, j, t, tick);
    if p.jobs[j].kind.Full? {
      BeginFullKeepsInv(c, p, j, p.jobs[j].kind.id, t, tick);
      BeginFullKeepsGuard(c, p, j, p.jobs[j].kind.id, t, tick);
    } else {
      SetPhaseKeepsSlot(p.jobs, p.runs, j, Working);
    }
  }

  lemma MoveKeepsChain(jobs: seq<Job>, tail: Option<nat>, inFlight: bool, j: nat, ph: Phase)
    requires ChainInv(jobs, tail, inFlight) && j < |jobs| && Active(jobs[j].phase) && ph != Queued
    ensures ChainInv(jobs[j := jobs[j].(phase := ph)], tail, Active(ph)) && inFlight
  {
    assert forall i :: j < i < |jobs| ==> jobs[i].phase == Queued;
    SetPhaseKeepsChain(jobs, tail, inFlight, j, ph);
  }

  /** Moving between phases inside the body, or settling it. */
  lemma SetPhaseKeepsInv(c: G.Limits, p: Project, j: nat, ph: Phase, tick: nat)
    requires ProjectInv(c, p, tick) && j < |p.jobs| && Active(p.jobs[j].phase) && ph != Queued
    ensures ProjectInv(c, SetPhase(p, j, ph).(inFlight := Active(ph)), tick)
    ensures p.inFlight
  {
    var jobs := p.jobs[j := p.jobs[j].(phase := ph)];
    MoveKeepsChain(p.jobs, p.tail, p.inFlight, j, ph);
    SetPhaseKeepsSlot(p.jobs, p.runs, j, ph);
    NewJobsKeepInv(c, p, jobs, Active(ph), tick);
  }

  lemma NewJobsKeepInv(c: G.Limits, p: Project, jobs: seq<Job>, inFlight: bool, tick: nat)
    requires ProjectInv(c, p, tick) && ChainInv(jobs, p.tail, inFlight) && Linked(jobs, p.runs)
    ensures ProjectInv(c, p.(jobs := jobs, inFlight := inFlight), tick)
  {
  }

  lemma EndRunKeepsSlot(queued: Option<nat>, jobs: seq<Job>, runs: seq<RunPhase>, begun: map<nat, nat>, id: nat)
    requires SlotInv(queued, jobs, runs, begun) && HasRunAt(runs, id) && runs[id - 1].Begun?
    requires runs[id - 1].job < |jobs| && jobs[runs[id - 1].job].phase.Settled?
    ensures queued != Some(id)
    ensures SlotInv(queued, jobs, runs[id - 1 := Ended(Some(runs[id - 1].job))], begun)
  {
    assert Linked(jobs, runs[id - 1 := Ended(Some(runs[id - 1].job))]);
  }

  lemma EndGuardKeepsInv(c: G.Limits, g: G.State, ok: bool, admitted: bool, id: nat)
    requires G.Inv(c, g) && g.queued != Some(id)
    ensures var g' := EndGuard(c, g, ok, admitted, id);
      G.Inv(c, g') && g'.queued == g.queued && g'.runSeq == g.runSeq
  {
  }

  /** An ending run finds the slot free of its own id, so its final clearing
      never takes a newer run's slot. */
  lemma EndRunKeepsInv(c: G.Limits, p: Project, id: nat, tick: nat)
    requires ProjectInv(c, p, tick) && CanEnd(p, id)
    ensures ProjectInv(c, EndRun(c, p, id), tick)
    ensures EndRun(c, p, id).guard.queued == p.guard.queued
  {
    var r := p.runs[id - 1];
    EndRunKeepsSlot(p.guard.queued, p.jobs, p.runs, p.begun, id);
    EndGuardKeepsInv(c, p.guard, p.jobs[r.job].phase.ok, r.admitted, id);
  }
}
