/** All served projects together: their chains and guards (module
    `IngestProtocol`) around the one daemon-wide limiter. */
module IngestSystem {
  import opened Common
  import opened IngestProtocol
  import G = IngestGuard
  import L = WorkLimiter

  /** A chain body, seen from the limiter: job `j` of project `p`. */
  datatype Client = Client(p: nat, j: nat)

  /** `holders` and `woken` record who owns a slot and who was woken and has not
      resumed; the code has only the counter and the queue. */
  datatype System = System(
    limiter: L.State<Client>,
    holders: set<Client>,
    woken: set<Client>,
    projects: seq<Project>,
    tick: nat)

  datatype Step =
    | RequestAt(p: nat, t: int)
    | SubmitOther(p: nat)
    | Repoint(p: nat, t: int)
    | Noted(p: nat, failed: bool)
    | NotedManual(p: nat, failed: bool)
    | ResetBreaker(p: nat)
    | WakeRun(p: nat, id: nat)
    | BeginJob(p: nat, j: nat, t: int)
    | Enter(p: nat, j: nat)
    | Resume(p: nat, j: nat)
    | Release(p: nat, j: nat)
    | FinishJob(p: nat, j: nat, ok: bool)
    | End(p: nat, id: nat)

  /** Steps that serve outstanding work, as opposed to bringing in new work or
      touching only the breaker. */
  predicate Internal(st: Step) {
    st.WakeRun? || st.BeginJob? || st.Enter? || st.Resume? || st.Release? || st.FinishJob? || st.End?
  }

  function PhaseIn(p: Project, j: nat): Phase {
    if j < |p.jobs| then p.jobs[j].phase else Queued
  }

  function PhaseAt(ps: seq<Project>, who: Client): Phase {
    if who.p < |ps| then PhaseIn(ps[who.p], who.j) else Queued
  }

  predicate Enabled(s: System, st: Step) {
    && st.p < |s.projects|
    && var p := s.projects[st.p];
       match st
       case RequestAt(_, _) => true
       case SubmitOther(_) => true
       case Repoint(_, _) => true
       case Noted(_, _) => true
       case NotedManual(_, _) => true
       case ResetBreaker(_) => true
       case WakeRun(_, id) => CanWake(p, id)
       case BeginJob(_, j, _) => CanBegin(p, j)
       case Enter(_, j) => PhaseIn(p, j) == Working
       case Resume(_, j) => PhaseIn(p, j) == Woken
       case Release(_, j) => PhaseIn(p, j) == Holding && s.limiter.active > 0
       case FinishJob(_, j, _) => CanFinish(p, j)
       case End(_, id) => CanEnd(p, id)
  }

  function PutPhase(ps: seq<Project>, who: Client, ph: Phase): seq<Project> {
    if who.p < |ps| && who.j < |ps[who.p].jobs| then ps[who.p := SetPhase(ps[who.p], who.j, ph)] else ps
  }

  /** `run`'s loop test, made on arrival and again on every resumption. */
  function TakeOrPark(s: System, who: Client): System {
    var a := L.Arrive(s.limiter, who);
    s.(limiter := a.0,
       holders := if a.1 then s.holders + {who} else s.holders,
       woken := s.woken - {who},
       projects := PutPhase(s.projects, who, if a.1 then Holding else Parked))
  }

  /** `run`'s `finally`: free the slot, wake the longest waiter. */
  function GiveBack(s: System, who: Client): System
    requires s.limiter.active > 0
  {
    var r := L.Leave(s.limiter);
    var ps := PutPhase(s.projects, who, Closing);
    s.(limiter := r.0,
       holders := s.holders - {who},
       woken := if r.1.Some? then s.woken + {r.1.value} else s.woken,
       projects := if r.1.Some? then PutPhase(ps, r.1.value, Woken) else ps)
  }

  function OnProject(c: G.Limits, p: Project, st: Step, tick: nat): Project {
    match st
    case RequestAt(_, t) => RequestFull(c, p, t, tick)
    case SubmitOther(_) => Submit(p, Other)
    case Repoint(_, t) =>
      var a := G.Admit(c, p.guard, t);
      var p' := p.(guard := a.0);
      if a.1 then Submit(p', Other) else p'
    case Noted(_, failed) => p.(guard := G.Note(c, p.guard, failed))
    case NotedManual(_, failed) => p.(guard := G.NoteManual(p.guard, failed))
    case ResetBreaker(_) => p.(guard := G.Reset(p.guard))
    case WakeRun(_, id) => if CanWake(p, id) then Wake(p, id) else p
    case BeginJob(_, j, t) => if CanBegin(p, j) then Begin(c, p, j, t, tick) else p
    case FinishJob(_, j, ok) => if CanFinish(p, j) then Finish(p, j, ok) else p
    case End(_, id) => if CanEnd(p, id) then EndRun(c, p, id) else p
    case _ => p
  }

  predicate OnLimiter(st: Step) {
    st.Enter? || st.Resume? || st.Release?
  }

  function LimiterNext(s: System, st: Step): System
    requires OnLimiter(st) && (st.Release? ==> s.limiter.active > 0)
  {
    var s' := s.(tick := s.tick + 1);
    if st.Release? then GiveBack(s', Client(st.p, st.j)) else TakeOrPark(s', Client(st.p, st.j))
  }

  function ProjectNext(c: G.Limits, s: System, st: Step): System
    requires st.p < |s.projects|
  {
    s.(tick := s.tick + 1,
       projects := s.projects[st.p := OnProject(c, s.projects[st.p], st, s.tick)])
  }

  function Next(c: G.Limits, s: System, st: Step): System
    requires Enabled(s, st)
  {
    if OnLimiter(st) then LimiterNext(s, st) else ProjectNext(c, s, st)
  }

  // ---------------------------------------------------------------- the invariant

  ghost predicate NoDup<T(!new)>(q: seq<T>) {
    forall i, j :: 0 <= i < j < |q| ==> q[i] != q[j]
  }

  /** Each client is known to the limiter by the phase it is in. */
  ghost predicate ClientsInv(holders: set<Client>, woken: set<Client>, waiters: seq<Client>, ps: seq<Project>) {
    && (forall who :: who in holders <==> PhaseAt(ps, who) == Holding)
    && (forall who :: who in woken <==> PhaseAt(ps, who) == Woken)
    && (forall who :: who in waiters <==> PhaseAt(ps, who) == Parked)
  }

  /** The counter counts the holders, the queue is the parked clients, and no
      wake-up is lost: while anyone is parked, the free slots are all promised. */
  ghost predicate LimiterInv(l: L.State<Client>, holders: set<Client>, woken: set<Client>, ps: seq<Project>) {
    && 1 <= l.limit && l.active == |holders| <= l.limit
    && NoDup(l.waiters)
    && ClientsInv(holders, woken, l.waiters, ps)
    && (l.waiters != [] ==> l.active + |woken| >= l.limit)
  }

  /** The first `n` projects keep their invariant. */
  ghost predicate ProjectsInv(c: G.Limits, ps: seq<Project>, n: nat, tick: nat)
    requires n <= |ps|
  {
    n == 0 || (ProjectsInv(c, ps, n - 1, tick) && ProjectInv(c, ps[n - 1], tick))
  }

  ghost predicate Inv(c: G.Limits, s: System) {
    && LimiterInv(s.limiter, s.holders, s.woken, s.projects)
    && ProjectsInv(c, s.projects, |s.projects|, s.tick)
  }

  function Start(limit: nat, projects: nat): System
    requires limit >= 1
  {
    System(L.State(limit, 0, []), {}, {}, seq(projects, i => FRESH_PROJECT), 0)
  }

  lemma {:induction false} ProjectAt(c: G.Limits, ps: seq<Project>, n: nat, tick: nat, i: nat)
    requires i < n <= |ps| && ProjectsInv(c, ps, n, tick)
    ensures ProjectInv(c, ps[i], tick)
  {
    if i < n - 1 {
      ProjectAt(c, ps, n - 1, tick, i);
    }
  }

  lemma {:induction false} UpdateKeepsProjects(c: G.Limits, ps: seq<Project>, n: nat, tick: nat, i: nat, p: Project)
    requires n <= |ps| && i < |ps| && ProjectsInv(c, ps, n, tick) && ProjectInv(c, p, tick)
    ensures ProjectsInv(c, ps[i := p], n, tick)
  {
    if n > 0 {
      UpdateKeepsProjects(c, ps, n - 1, tick, i, p);
    }
  }

  lemma StartInv(c: G.Limits, limit: nat, projects: nat)
    requires limit >= 1
    ensures Inv(c, Start(limit, projects))
  {
    FreshProjects(c, projects, projects);
  }

  lemma {:induction false} FreshProjects(c: G.Limits, projects: nat, n: nat)
    requires n <= projects
    ensures ProjectsInv(c, seq(projects, i => FRESH_PROJECT), n, 0)
  {
    if n > 0 {
      FreshProjects(c, projects, n - 1);
    }
  }

  // ---------------------------------------------------------------- steps on the limiter

  /** The part of a phase that the limiter knows about. */
  function InLimiter(ph: Phase): Phase {
    if ph.Holding? || ph.Woken? || ph.Parked? then ph else Queued
  }

  lemma LimiterFrame(l: L.State<Client>, holders: set<Client>, woken: set<Client>, ps: seq<Project>, i: nat, p: Project)
    requires LimiterInv(l, holders, woken, ps) && i < |ps|
    requires forall j: nat :: InLimiter(PhaseIn(p, j)) == InLimiter(PhaseIn(ps[i], j))
    ensures LimiterInv(l, holders, woken, ps[i := p])
  {
    forall who: Client
      ensures InLimiter(PhaseAt(ps[i := p], who)) == InLimiter(PhaseAt(ps, who))
    {
    }
  }

  lemma PutPhaseAt(ps: seq<Project>, who: Client, ph: Phase, other: Client)
    requires who.p < |ps| && who.j < |ps[who.p].jobs|
    ensures PhaseAt(PutPhase(ps, who, ph), other) == if other == who then ph else PhaseAt(ps, other)
  {
  }

  /** `ps'` is `ps` with the phase of `who` changed to `ph`. */
  ghost predicate OnePhase(ps: seq<Project>, ps': seq<Project>, who: Client, ph: Phase) {
    forall other :: PhaseAt(ps', other) == if other == who then ph else PhaseAt(ps, other)
  }

  lemma RemovedOne(s: set<Client>, x: Client)
    ensures |s| - 1 <= |s - {x}| <= |s|
  {
    if x in s {
      assert |s - {x}| == |s| - 1;
    } else {
      assert s - {x} == s;
    }
  }

  lemma TakeKeepsClients(holders: set<Client>, woken: set<Client>, waiters: seq<Client>,
                         ps: seq<Project>, ps': seq<Project>, who: Client)
    requires ClientsInv(holders, woken, waiters, ps)
    requires PhaseAt(ps, who) != Parked && OnePhase(ps, ps', who, Holding)
    ensures ClientsInv(holders + {who}, woken - {who}, waiters, ps')
  {
  }

  lemma TakeKeepsLimiter(l: L.State<Client>, holders: set<Client>, woken: set<Client>,
                         ps: seq<Project>, ps': seq<Project>, who: Client)
    requires LimiterInv(l, holders, woken, ps) && l.active < l.limit
    requires PhaseAt(ps, who) == Working || PhaseAt(ps, who) == Woken
    requires OnePhase(ps, ps', who, Holding)
    ensures LimiterInv(l.(active := l.active + 1), holders + {who}, woken - {who}, ps')
  {
    assert who !in holders;
    RemovedOne(woken, who);
    TakeKeepsClients(holders, woken, l.waiters, ps, ps', who);
  }

  lemma ParkKeepsLimiter(l: L.State<Client>, holders: set<Client>, woken: set<Client>,
                         ps: seq<Project>, ps': seq<Project>, who: Client)
    requires LimiterInv(l, holders, woken, ps) && l.active >= l.limit
    requires PhaseAt(ps, who) == Working || PhaseAt(ps, who) == Woken
    requires OnePhase(ps, ps', who, Parked)
    ensures LimiterInv(l.(waiters := l.waiters + [who]), holders, woken - {who}, ps')
  {
    assert who !in l.waiters;
  }

  lemma ArriveKeepsLimiter(s: System, who: Client)
    requires LimiterInv(s.limiter, s.holders, s.woken, s.projects)
    requires PhaseAt(s.projects, who) == Working || PhaseAt(s.projects, who) == Woken
    ensures var s' := TakeOrPark(s, who); LimiterInv(s'.limiter, s'.holders, s'.woken, s'.projects)
  {
    var s' := TakeOrPark(s, who);
    var ph := if L.Arrive(s.limiter, who).1 then Holding else Parked;
    assert OnePhase(s.projects, s'.projects, who, ph) by {
      forall other: Client {
        PutPhaseAt(s.projects, who, ph, other);
      }
    }
    if s.limiter.active < s.limiter.limit {
      TakeKeepsLimiter(s.limiter, s.holders, s.woken, s.projects, s'.projects, who);
    } else {
      ParkKeepsLimiter(s.limiter, s.holders, s.woken, s.projects, s'.projects, who);
    }
  }

  lemma DropFirst(q: seq<Client>)
    requires q != [] && NoDup(q)
    ensures NoDup(q[1..]) && forall who :: who in q[1..] <==> who in q && who != q[0]
  {
  }

  lemma WakeKeepsClients(holders: set<Client>, woken: set<Client>, waiters: seq<Client>, rest: seq<Client>, first: Client,
                         ps: seq<Project>, ps': seq<Project>, ps'': seq<Project>, who: Client)
    requires ClientsInv(holders, woken, waiters, ps) && who in holders && first in waiters
    requires forall other :: other in rest <==> other in waiters && other != first
    requires OnePhase(ps, ps', who, Closing) && OnePhase(ps', ps'', first, Woken)
    ensures ClientsInv(holders - {who}, woken + {first}, rest, ps'') && first !in woken
  {
  }

  lemma WakeKeepsLimiter(l: L.State<Client>, holders: set<Client>, woken: set<Client>,
                         ps: seq<Project>, ps': seq<Project>, ps'': seq<Project>, who: Client)
    requires LimiterInv(l, holders, woken, ps) && who in holders && l.waiters != []
    requires OnePhase(ps, ps', who, Closing) && OnePhase(ps', ps'', l.waiters[0], Woken)
    ensures LimiterInv(l.(active := l.active - 1, waiters := l.waiters[1..]), holders - {who}, woken + {l.waiters[0]}, ps'')
  {
    DropFirst(l.waiters);
    WakeKeepsClients(holders, woken, l.waiters, l.waiters[1..], l.waiters[0], ps, ps', ps'', who);
  }

  lemma FreeKeepsLimiter(l: L.State<Client>, holders: set<Client>, woken: set<Client>, ps: seq<Project>, ps': seq<Project>, who: Client)
    requires LimiterInv(l, holders, woken, ps) && who in holders && l.waiters == [] && OnePhase(ps, ps', who, Closing)
    ensures LimiterInv(l.(active := l.active - 1), holders - {who}, woken, ps')
  {
  }

  lemma LeaveKeepsLimiter(s: System, who: Client)
    requires LimiterInv(s.limiter, s.holders, s.woken, s.projects)
    requires PhaseAt(s.projects, who) == Holding && s.limiter.active > 0
    ensures var s' := GiveBack(s, who); LimiterInv(s'.limiter, s'.holders, s'.woken, s'.projects)
  {
    var q := s.limiter.waiters;
    var ps := PutPhase(s.projects, who, Closing);
    assert OnePhase(s.projects, ps, who, Closing) by {
      forall other: Client {
        PutPhaseAt(s.projects, who, Closing, other);
      }
    }
    if q == [] {
      FreeKeepsLimiter(s.limiter, s.holders, s.woken, s.projects, ps, who);
    } else {
      assert q[0] in q && PhaseAt(s.projects, q[0]) == Parked;
      assert OnePhase(ps, PutPhase(ps, q[0], Woken), q[0], Woken) by {
        forall other: Client {
          PutPhaseAt(ps, q[0], Woken, other);
        }
      }
      WakeKeepsLimiter(s.limiter, s.holders, s.woken, s.projects, ps, PutPhase(ps, q[0], Woken), who);
    }
  }

  // ---------------------------------------------------------------- every step keeps the invariant

  lemma LaterKeepsInv(c: G.Limits, p: Project, tick: nat, tick': nat)
    requires ProjectInv(c, p, tick) && tick <= tick'
    ensures ProjectInv(c, p, tick')
  {
  }

  lemma {:induction false} LaterKeepsProjects(c: G.Limits, ps: seq<Project>, n: nat, tick: nat, tick': nat)
    requires n <= |ps| && ProjectsInv(c, ps, n, tick) && tick <= tick'
    ensures ProjectsInv(c, ps, n, tick')
  {
    if n > 0 {
      LaterKeepsProjects(c, ps, n - 1, tick, tick');
      LaterKeepsInv(c, ps[n - 1], tick, tick');
    }
  }

  /** Outcomes and resets touch the breaker's fields only. */
  lemma GuardStepKeepsInv(c: G.Limits, p: Project, st: Step, tick: nat)
    requires ProjectInv(c, p, tick) && (st.Noted? || st.NotedManual? || st.ResetBreaker?)
    ensures ProjectInv(c, OnProject(c, p, st, tick), tick)
  {
    BreakerKeepsInv(c, p, OnProject(c, p, st, tick).guard, tick);
  }

  lemma BreakerKeepsInv(c: G.Limits, p: Project, g: G.State, tick: nat)
    requires ProjectInv(c, p, tick)
    requires G.Inv(c, g) && g.queued == p.guard.queued && g.runSeq == p.guard.runSeq
    ensures ProjectInv(c, p.(guard := g), tick)
  {
  }

  lemma RepointKeepsInv(c: G.Limits, p: Project, st: Step, tick: nat, n: nat)
    requires st.Repoint? && ProjectInv(c, p, n)
    ensures ProjectInv(c, OnProject(c, p, st, tick), n)
  {
    var a := G.Admit(c, p.guard, st.t);
    G.AdmitKeepsInv(c, p.guard, st.t);
    var p' := p.(guard := a.0);
    assert ProjectInv(c, p', n);
    if a.1 {
      SubmitKeepsInv(c, p', n);
    }
  }

  lemma WakeKeepsInv(c: G.Limits, p: Project, id: nat, tick: nat)
    requires ProjectInv(c, p, tick) && CanWake(p, id)
    ensures ProjectInv(c, Wake(p, id), tick)
  {
    if p.guard.tripped.Some? {
      GiveUpKeepsInv(c, p, id, tick);
    } else {
      EnterChainKeepsInv(c, p, id, tick);
    }
  }

  lemma JobStepKeepsInv(c: G.Limits, p: Project, st: Step, tick: nat)
    requires ProjectInv(c, p, tick) && (st.FinishJob? || st.BeginJob?)
    ensures ProjectInv(c, OnProject(c, p, st, tick), tick + 1)
  {
    LaterKeepsInv(c, p, tick, tick + 1);
    if st.BeginJob? && CanBegin(p, st.j) {
      BeginKeepsInv(c, p, st.j, st.t, tick);
    } else if st.FinishJob? && CanFinish(p, st.j) {
      SetPhaseKeepsInv(c, p, st.j, Settled(st.ok), tick + 1);
    }
  }

  lemma OnProjectKeepsInv(c: G.Limits, p: Project, st: Step, tick: nat)
    requires ProjectInv(c, p, tick) && !st.Enter? && !st.Resume? && !st.Release?
    ensures ProjectInv(c, OnProject(c, p, st, tick), tick + 1)
  {
    LaterKeepsInv(c, p, tick, tick + 1);
    match st {
      case RequestAt(_, t) => RequestKeepsInv(c, p, t, tick);
      case SubmitOther(_) => SubmitKeepsInv(c, p, tick + 1);
      case Repoint(_, _) => RepointKeepsInv(c, p, st, tick, tick + 1);
      case WakeRun(_, id) =>
        if CanWake(p, id) {
          WakeKeepsInv(c, p, id, tick + 1);
        }
      case End(_, id) =>
        if CanEnd(p, id) {
          EndRunKeepsInv(c, p, id, tick + 1);
        }
      case BeginJob(_, _, _) => JobStepKeepsInv(c, p, st, tick);
      case FinishJob(_, _, _) => JobStepKeepsInv(c, p, st, tick);
      case Noted(_, _) => GuardStepKeepsInv(c, p, st, tick + 1);
      case NotedManual(_, _) => GuardStepKeepsInv(c, p, st, tick + 1);
      case ResetBreaker(_) => GuardStepKeepsInv(c, p, st, tick + 1);
      case Enter(_, _) =>
      case Resume(_, _) =>
      case Release(_, _) =>
    }
  }

  /** A step on one project alone is invisible to the limiter. */
  lemma OnProjectIsInvisible(c: G.Limits, p: Project, st: Step, tick: nat, j: nat)
    requires !st.Enter? && !st.Resume? && !st.Release?
    ensures InLimiter(PhaseIn(OnProject(c, p, st, tick), j)) == InLimiter(PhaseIn(p, j))
  {
  }

  lemma TakeOrParkKeepsProjects(c: G.Limits, ps: seq<Project>, who: Client, ph: Phase, tick: nat)
    requires ProjectsInv(c, ps, |ps|, tick) && Active(PhaseAt(ps, who)) && Active(ph)
    ensures ProjectsInv(c, PutPhase(ps, who, ph), |ps|, tick)
  {
    ProjectAt(c, ps, |ps|, tick, who.p);
    SetPhaseKeepsInv(c, ps[who.p], who.j, ph, tick);
    UpdateKeepsProjects(c, ps, |ps|, tick, who.p, SetPhase(ps[who.p], who.j, ph));
  }

  lemma ReleaseKeepsProjects(c: G.Limits, s: System, who: Client)
    requires ProjectsInv(c, s.projects, |s.projects|, s.tick) && s.limiter.active > 0
    requires PhaseAt(s.projects, who) == Holding
    requires s.limiter.waiters != [] ==> PhaseAt(s.projects, s.limiter.waiters[0]) == Parked
    ensures ProjectsInv(c, GiveBack(s, who).projects, |s.projects|, s.tick)
  {
    TakeOrParkKeepsProjects(c, s.projects, who, Closing, s.tick);
    var q := s.limiter.waiters;
    if q != [] {
      PutPhaseAt(s.projects, who, Closing, q[0]);
      TakeOrParkKeepsProjects(c, PutPhase(s.projects, who, Closing), q[0], Woken, s.tick);
    }
  }

  /** The phase a client is in when it takes step `st` on the limiter. */
  predicate AtLimiter(s: System, st: Step) {
    && OnLimiter(st) && st.p < |s.projects|
    && var ph := PhaseIn(s.projects[st.p], st.j);
       if st.Release? then ph == Holding && s.limiter.active > 0 else ph == Working || ph == Woken
  }

  lemma LimiterStepKeepsLimiter(s: System, st: Step)
    requires LimiterInv(s.limiter, s.holders, s.woken, s.projects) && AtLimiter(s, st)
    ensures var s' := LimiterNext(s, st); LimiterInv(s'.limiter, s'.holders, s'.woken, s'.projects)
  {
    var who := Client(st.p, st.j);
    if st.Release? {
      LeaveKeepsLimiter(s.(tick := s.tick + 1), who);
    } else {
      ArriveKeepsLimiter(s.(tick := s.tick + 1), who);
    }
  }

  lemma LimiterStepKeepsProjects(c: G.Limits, s: System, st: Step)
    requires ProjectsInv(c, s.projects, |s.projects|, s.tick) && AtLimiter(s, st)
    requires s.limiter.waiters != [] ==> PhaseAt(s.projects, s.limiter.waiters[0]) == Parked
    ensures var s' := LimiterNext(s, st); ProjectsInv(c, s'.projects, |s.projects|, s'.tick)
  {
    var who := Client(st.p, st.j);
    var s' := s.(tick := s.tick + 1);
    LaterKeepsProjects(c, s.projects, |s.projects|, s.tick, s'.tick);
    if st.Release? {
      ReleaseKeepsProjects(c, s', who);
    } else {
      TakeOrParkKeepsProjects(c, s'.projects, who, if L.Arrive(s.limiter, who).1 then Holding else Parked, s'.tick);
    }
  }

  lemma ProjectStepKeepsLimiter(c: G.Limits, s: System, st: Step)
    requires LimiterInv(s.limiter, s.holders, s.woken, s.projects) && st.p < |s.projects| && !OnLimiter(st)
    ensures LimiterInv(s.limiter, s.holders, s.woken, ProjectNext(c, s, st).projects)
  {
    var p := s.projects[st.p];
    forall j: nat {
      OnProjectIsInvisible(c, p, st, s.tick, j);
    }
    LimiterFrame(s.limiter, s.holders, s.woken, s.projects, st.p, OnProject(c, p, st, s.tick));
  }

  lemma ProjectStepKeepsProjects(c: G.Limits, s: System, st: Step)
    requires ProjectsInv(c, s.projects, |s.projects|, s.tick) && st.p < |s.projects| && !OnLimiter(st)
    ensures ProjectsInv(c, ProjectNext(c, s, st).projects, |s.projects|, s.tick + 1)
  {
    ProjectAt(c, s.projects, |s.projects|, s.tick, st.p);
    OnProjectKeepsInv(c, s.projects[st.p], st, s.tick);
    LaterKeepsProjects(c, s.projects, |s.projects|, s.tick, s.tick + 1);
    UpdateKeepsProjects(c, s.projects, |s.projects|, s.tick + 1, st.p, OnProject(c, s.projects[st.p], st, s.tick));
  }

  lemma StepKeepsCount(c: G.Limits, s: System, st: Step)
    requires Enabled(s, st)
    ensures |Next(c, s, st).projects| == |s.projects|
  {
  }

  lemma LimiterStepKeepsInv(c: G.Limits, s: System, st: Step, s': System)
    requires Inv(c, s) && AtLimiter(s, st) && s' == LimiterNext(s, st) && |s'.projects| == |s.projects|
    ensures Inv(c, s')
  {
    assert s.limiter.waiters != [] ==> s.limiter.waiters[0] in s.limiter.waiters;
    LimiterStepKeepsLimiter(s, st);
    LimiterStepKeepsProjects(c, s, st);
  }

  lemma ProjectStepKeepsInv(c: G.Limits, s: System, st: Step, s': System)
    requires Inv(c, s) && st.p < |s.projects| && !OnLimiter(st)
    requires s' == ProjectNext(c, s, st) && |s'.projects| == |s.projects|
    ensures Inv(c, s')
  {
    ProjectStepKeepsLimiter(c, s, st);
    ProjectStepKeepsProjects(c, s, st);
  }

  lemma StepKeepsInv(c: G.Limits, s: System, st: Step)
    requires Inv(c, s) && Enabled(s, st)
    ensures Inv(c, Next(c, s, st))
  {
    StepKeepsCount(c, s, st);
    if OnLimiter(st) {
      LimiterStepKeepsInv(c, s, st, Next(c, s, st));
    } else {
      ProjectStepKeepsInv(c, s, st, Next(c, s, st));
    }
  }

  // ---------------------------------------------------------------- runs

  /** `steps` can be taken one after the other from `s`. */
  predicate Runs(c: G.Limits, s: System, steps: seq<Step>)
    decreases |steps|
  {
    steps == [] || (Enabled(s, steps[0]) && Runs(c, Next(c, s, steps[0]), steps[1..]))
  }

  function After(c: G.Limits, s: System, steps: seq<Step>): System
    requires Runs(c, s, steps)
    decreases |steps|
  {
    if steps == [] then s else After(c, Next(c, s, steps[0]), steps[1..])
  }

  lemma {:induction false} RunKeepsInv(c: G.Limits, s: System, steps: seq<Step>)
    requires Inv(c, s) && Runs(c, s, steps)
    ensures Inv(c, After(c, s, steps))
    decreases |steps|
  {
    if steps != [] {
      StepKeepsInv(c, s, steps[0]);
      RunKeepsInv(c, Next(c, s, steps[0]), steps[1..]);
    }
  }

  /** `s` is reached from a fresh daemon by some interleaving. */
  ghost predicate Reachable(c: G.Limits, s: System) {
    exists limit: nat, projects: nat, steps: seq<Step> ::
      limit >= 1 && Runs(c, Start(limit, projects), steps) && After(c, Start(limit, projects), steps) == s
  }

  lemma ReachableInv(c: G.Limits, s: System)
    requires Reachable(c, s)
    ensures Inv(c, s)
  {
    var limit: nat, projects: nat, steps: seq<Step> :|
      limit >= 1 && Runs(c, Start(limit, projects), steps) && After(c, Start(limit, projects), steps) == s;
    StartInv(c, limit, projects);
    RunKeepsInv(c, Start(limit, projects), steps);
  }

  /** Never more than `limit` bodies hold a slot, and while a body is parked
      every slot is held or promised to a woken one. */
  lemma LimiterIsSafe(c: G.Limits, s: System)
    requires Reachable(c, s)
    ensures |s.holders| == s.limiter.active <= s.limiter.limit
    ensures forall who :: who in s.holders <==> PhaseAt(s.projects, who) == Holding
    ensures (exists who :: PhaseAt(s.projects, who) == Parked) ==> |s.holders| + |s.woken| >= s.limiter.limit
  {
    ReachableInv(c, s);
    forall who | PhaseAt(s.projects, who) == Parked
      ensures |s.holders| + |s.woken| >= s.limiter.limit
    {
      assert who in s.limiter.waiters;
    }
  }

  /** A chain runs its bodies one at a time and in submission order, whether or
      not earlier ones rejected, and `inFlight` says whether one is running. */
  lemma ChainIsExclusive(c: G.Limits, s: System, p: nat, i: nat, j: nat)
    requires Reachable(c, s) && p < |s.projects| && i < j
    ensures PhaseIn(s.projects[p], j) != Queued ==> PhaseIn(s.projects[p], i).Settled?
    ensures s.projects[p].inFlight <==> exists k: nat :: Active(PhaseIn(s.projects[p], k))
  {
    ReachableInv(c, s);
    var jobs := s.projects[p].jobs;
    ProjectAt(c, s.projects, |s.projects|, s.tick, p);
    if s.projects[p].inFlight {
      var k :| 0 <= k < |jobs| && Active(jobs[k].phase);
      assert Active(PhaseIn(s.projects[p], k));
    }
  }

  /** At most one full run is requested and not begun; the slot names it. */
  lemma OneRunQueued(c: G.Limits, s: System, p: nat, id: nat)
    requires Reachable(c, s) && p < |s.projects| && HasRun(s.projects[p], id)
    ensures Pending(s.projects[p].runs[id - 1]) <==> s.projects[p].guard.queued == Some(id)
  {
    ReachableInv(c, s);
    var q := s.projects[p];
    ProjectAt(c, s.projects, |s.projects|, s.tick, p);
    SlotHoldsPendingRun(q.guard.queued, q.jobs, q.runs, q.begun, id);
  }

  lemma SlotHoldsPendingRun(queued: Option<nat>, jobs: seq<Job>, runs: seq<RunPhase>, begun: map<nat, nat>, id: nat)
    requires SlotInv(queued, jobs, runs, begun) && 1 <= id <= |runs|
    ensures Pending(runs[id - 1]) <==> queued == Some(id)
  {
  }

  /** An admitted run starts after every request it answers. */
  lemma RunBeginsAfterItsRequests(c: G.Limits, s: System, p: nat, i: nat)
    requires Reachable(c, s) && p < |s.projects| && i < |s.projects[p].log|
    ensures var r := s.projects[p].log[i];
      HasRun(s.projects[p], r.id)
      && (r.id in s.projects[p].begun <==> HasBegun(s.projects[p].runs[r.id - 1]))
      && (r.id in s.projects[p].begun ==> r.at < s.projects[p].begun[r.id] < s.tick)
  {
    ReachableInv(c, s);
    ProjectAt(c, s.projects, |s.projects|, s.tick, p);
  }

  /** An ending run never takes the slot away from a newer one. */
  lemma EndLeavesSlot(c: G.Limits, s: System, st: Step)
    requires Reachable(c, s) && Enabled(s, st) && st.End?
    ensures Next(c, s, st).projects[st.p].guard.queued == s.projects[st.p].guard.queued
  {
    ReachableInv(c, s);
    ProjectAt(c, s.projects, |s.projects|, s.tick, st.p);
    EndRunKeepsInv(c, s.projects[st.p], st.id, s.tick);
  }

  /** The admissions of every project since its last reset obey the guard's bounds in every interleaving. */
  lemma AdmissionsAreBounded(c: G.Limits, s: System, p: nat, lo: int, horizon: nat)
    requires Reachable(c, s) && p < |s.projects|
    ensures var h := s.projects[p].guard.history;
      && G.Spaced(h, |h|, c.minInterval)
      && G.CountIn(h, |h|, lo, lo + c.window) <= Max(0, c.maxRuns)
      && (c.minInterval > 0 ==> G.CountIn(h, |h|, lo, lo + horizon) <= horizon / c.minInterval + 1)
      && (c.window > 0 ==> G.CountIn(h, |h|, lo, lo + horizon) <= Max(0, c.maxRuns) * (horizon / c.window + 1))
  {
    ReachableInv(c, s);
    ProjectAt(c, s.projects, |s.projects|, s.tick, p);
    G.HistoryIsBounded(c, s.projects[p].guard.history, lo, horizon);
  }

  // ---------------------------------------------------------------- what each step does to a project

  /** A request joins the queued run. Without one a new run gives up at once on a trip, sleeps if the last
      start is less than an interval ago, and else enters the chain. */
  lemma RequestMeans(c: G.Limits, s: System, p: nat, t: int)
    requires Inv(c, s) && p < |s.projects|
    ensures var q, q' := s.projects[p], Next(c, s, RequestAt(p, t)).projects[p];
      if q.guard.queued.Some? then q' == q.(log := q.log + [Request(s.tick, q.guard.queued.value)])
      else
        var id, soon := |q.runs| + 1, q.guard.lastStart.Some? && t - q.guard.lastStart.value < c.minInterval;
        && q'.log == q.log + [Request(s.tick, id)]
        && q'.guard.queued == (if q.guard.tripped.Some? then None else Some(id))
        && q'.runs == q.runs + [if q.guard.tripped.Some? then Ended(None) else if soon then Sleeping else Chained(|q.jobs|)]
        && q'.jobs == q.jobs + (if q.guard.tripped.Some? || soon then [] else [Job(Full(id), q.tail, Queued)])
  {
    ProjectAt(c, s.projects, |s.projects|, s.tick, p);
  }

  /** A run that slept gives up if the breaker tripped meanwhile, and else enters the chain. */
  lemma WakeMeans(c: G.Limits, s: System, p: nat, id: nat)
    requires Inv(c, s) && Enabled(s, WakeRun(p, id))
    ensures var q, q' := s.projects[p], Next(c, s, WakeRun(p, id)).projects[p];
      if q.guard.tripped.Some? then q'.jobs == q.jobs && q'.runs == q.runs[id - 1 := Ended(None)] && q'.guard.queued == None
      else
        q'.jobs == q.jobs + [Job(Full(id), q.tail, Queued)] && q'.runs == q.runs[id - 1 := Chained(|q.jobs|)]
        && q'.guard == q.guard
  {
    ProjectAt(c, s.projects, |s.projects|, s.tick, p);
    var q := s.projects[p];
    GiveUpKeepsSlot(q.guard.queued, q.jobs, q.runs, q.begun, id);
  }

  /** The history since the last reset calls for the run: no trip, an interval since the last one, room in the window. */
  predicate IsDue(c: G.Limits, g: G.State, t: int) {
    && g.tripped == None
    && (g.history != [] ==> t - g.history[|g.history| - 1] >= c.minInterval)
    && G.CountIn(g.history, |g.history|, t - c.window, t) < c.maxRuns
  }

  lemma AdmittedIffDue(c: G.Limits, g: G.State, t: int)
    requires G.Inv(c, g)
    ensures G.Admit(c, g, t).1 <==> IsDue(c, g, t)
    ensures G.Admit(c, g, t).0.history == g.history + if IsDue(c, g, t) then [t] else []
  {
    G.RecentRefinesHistory(c, g, t);
    G.AdmitKeepsInv(c, g, t);
  }

  lemma BeginFullMeans(c: G.Limits, q: Project, j: nat, t: int, tick: nat)
    requires ProjectInv(c, q, tick) && CanBegin(q, j) && q.jobs[j].kind.Full?
    ensures var q', id, due := Begin(c, q, j, t, tick), q.jobs[j].kind.id, IsDue(c, q.guard, t);
      && q.guard.queued == Some(id) && q'.guard.queued == None
      && q'.jobs == q.jobs[j := Job(Full(id), q.jobs[j].after, if due then Working else Closing)]
      && q'.runs == q.runs[id - 1 := Begun(j, due)]
      && q'.guard.history == q.guard.history + (if due then [t] else [])
  {
    ChainedIsQueued(q.guard.queued, q.jobs, q.runs, q.begun, j);
    AdmittedIffDue(c, G.ClearSlot(q.guard, q.jobs[j].kind.id), t);
  }

  /** The body of a full run frees the slot, and works if and only if it is due: only then it counts. */
  lemma BeginMeans(c: G.Limits, s: System, p: nat, j: nat, t: int)
    requires Inv(c, s) && Enabled(s, BeginJob(p, j, t)) && s.projects[p].jobs[j].kind.Full?
    ensures var q, q' := s.projects[p], Next(c, s, BeginJob(p, j, t)).projects[p];
      var id, due := q.jobs[j].kind.id, IsDue(c, q.guard, t);
      && q.guard.queued == Some(id) && q'.guard.queued == None
      && q'.jobs == q.jobs[j := Job(Full(id), q.jobs[j].after, if due then Working else Closing)]
      && q'.runs == q.runs[id - 1 := Begun(j, due)]
      && q'.guard.history == q.guard.history + (if due then [t] else [])
  {
    ProjectAt(c, s.projects, |s.projects|, s.tick, p);
    BeginFullMeans(c, s.projects[p], j, t, s.tick);
  }

  /** A re-point puts its work on the chain if and only if it is due, and counts only then. */
  lemma RepointMeans(c: G.Limits, s: System, p: nat, t: int)
    requires Inv(c, s) && p < |s.projects|
    ensures var q, q' := s.projects[p], Next(c, s, Repoint(p, t)).projects[p];
      && q'.jobs == q.jobs + (if IsDue(c, q.guard, t) then [Job(Other, q.tail, Queued)] else [])
      && q'.guard.history == q.guard.history + (if IsDue(c, q.guard, t) then [t] else [])
      && q'.runs == q.runs && q'.guard.queued == q.guard.queued
  {
    ProjectAt(c, s.projects, |s.projects|, s.tick, p);
    AdmittedIffDue(c, s.projects[p].guard, t);
  }

  /** A body that comes or was woken takes a slot if one is free, and else parks at the tail. */
  lemma EnterMeans(c: G.Limits, s: System, st: Step, other: Client)
    requires Inv(c, s) && Enabled(s, st) && (st.Enter? || st.Resume?)
    ensures var s', who, free := Next(c, s, st), Client(st.p, st.j), |s.holders| < s.limiter.limit;
      && PhaseAt(s'.projects, who) == (if free then Holding else Parked)
      && s'.limiter.waiters == s.limiter.waiters + (if free then [] else [who])
      && (other != who ==> PhaseAt(s'.projects, other) == PhaseAt(s.projects, other))
  {
    var who := Client(st.p, st.j);
    var ph := if L.Arrive(s.limiter, who).1 then Holding else Parked;
    PutPhaseAt(s.projects, who, ph, who);
    PutPhaseAt(s.projects, who, ph, other);
  }

  /** A body that leaves wakes the one that has been parked longest, and nobody else. */
  lemma ReleaseMeans(c: G.Limits, s: System, st: Step, other: Client)
    requires Inv(c, s) && Enabled(s, st) && st.Release?
    ensures var s', who, q := Next(c, s, st), Client(st.p, st.j), s.limiter.waiters;
      && s'.limiter.waiters == (if q == [] then [] else q[1..])
      && PhaseAt(s'.projects, other) ==
         if other == who then Closing else if q != [] && other == q[0] then Woken else PhaseAt(s.projects, other)
  {
    var who, q := Client(st.p, st.j), s.limiter.waiters;
    PutPhaseAt(s.projects, who, Closing, other);
    if q != [] {
      assert q[0] in q;
      PutPhaseAt(s.projects, who, Closing, q[0]);
      PutPhaseAt(PutPhase(s.projects, who, Closing), q[0], Woken, other);
    }
  }

  // ---------------------------------------------------------------- outcomes over a run

  /** What a step means for the failures in a row: nothing, an outcome, or a new start. */
  datatype Mark = Nothing | Outcome(failed: bool) | Restart

  /** A full run that ends after its body was rejected failed, one that was admitted and ran through
      succeeded, and one that was refused leaves no mark. */
  function MarkOf(s: System, st: Step, p: nat): Mark
    requires Enabled(s, st)
  {
    if st.p != p then Nothing
    else
      match st
      case Noted(_, failed) => Outcome(failed)
      case ResetBreaker(_) => Restart
      case End(_, id) =>
        var r := s.projects[p].runs[id - 1];
        if s.projects[p].jobs[r.job].phase == Settled(false) then Outcome(true)
        else if r.admitted then Outcome(false)
        else Nothing
      case _ => Nothing
  }

  lemma PutPhaseKeepsGuard(ps: seq<Project>, who: Client, ph: Phase, p: nat)
    requires p < |ps|
    ensures |PutPhase(ps, who, ph)| == |ps| && PutPhase(ps, who, ph)[p].guard == ps[p].guard
  {
  }

  lemma LimiterKeepsGuard(s: System, st: Step, p: nat)
    requires OnLimiter(st) && (st.Release? ==> s.limiter.active > 0) && p < |s.projects| == |LimiterNext(s, st).projects|
    ensures LimiterNext(s, st).projects[p].guard == s.projects[p].guard
  {
    if st.Release? {
      PutPhaseKeepsGuard(s.projects, Client(st.p, st.j), Closing, p);
      if s.limiter.waiters != [] {
        PutPhaseKeepsGuard(PutPhase(s.projects, Client(st.p, st.j), Closing), s.limiter.waiters[0], Woken, p);
      }
    } else {
      PutPhaseKeepsGuard(s.projects, Client(st.p, st.j), if L.Arrive(s.limiter, Client(st.p, st.j)).1 then Holding else Parked, p);
    }
  }

  /** The counter and the trip after a step with this mark. */
  ghost predicate Marked(c: G.Limits, g: G.State, mark: Mark, g': G.State) {
    match mark
    case Nothing => g'.failures == g.failures && (g'.tripped == g.tripped || (g.tripped.None? && g'.tripped == Some(G.Rate)))
    case Outcome(failed) =>
      g'.failures == (if failed then g.failures + 1 else 0)
      && g'.tripped == (if failed && g.tripped.None? && g.failures + 1 >= c.threshold then Some(G.Failures) else g.tripped)
    case Restart => g'.failures == 0 && g'.tripped.None?
  }

  lemma ProjectStepMarks(c: G.Limits, s: System, st: Step)
    requires Enabled(s, st) && !OnLimiter(st)
    ensures Marked(c, s.projects[st.p].guard, MarkOf(s, st, st.p), OnProject(c, s.projects[st.p], st, s.tick).guard)
  {
  }

  lemma StepMarks(c: G.Limits, s: System, st: Step, p: nat)
    requires Enabled(s, st) && p < |s.projects| == |Next(c, s, st).projects|
    ensures Marked(c, s.projects[p].guard, MarkOf(s, st, p), Next(c, s, st).projects[p].guard)
  {
    if OnLimiter(st) {
      LimiterKeepsGuard(s, st, p);
    } else {
      ProjectStepMarks(c, s, st);
    }
  }

  /** The guard before the first step and after each one. */
  function GuardsOf(c: G.Limits, s: System, steps: seq<Step>, p: nat): (gs: seq<G.State>)
    requires Runs(c, s, steps) && p < |s.projects|
    ensures |gs| == |steps| + 1
    decreases |steps|
  {
    if steps == [] then [s.projects[p].guard]
    else
      StepKeepsCount(c, s, steps[0]);
      [s.projects[p].guard] + GuardsOf(c, Next(c, s, steps[0]), steps[1..], p)
  }

  function MarksOf(c: G.Limits, s: System, steps: seq<Step>, p: nat): (marks: seq<Mark>)
    requires Runs(c, s, steps)
    ensures |marks| == |steps|
    decreases |steps|
  {
    if steps == [] then [] else [MarkOf(s, steps[0], p)] + MarksOf(c, Next(c, s, steps[0]), steps[1..], p)
  }

  /** Each guard follows from the one before by its mark. */
  ghost predicate FollowMarks(c: G.Limits, gs: seq<G.State>, marks: seq<Mark>) {
    |gs| == |marks| + 1 && forall i :: 0 <= i < |marks| ==> Marked(c, gs[i], marks[i], gs[i + 1])
  }

  lemma FollowOneMore(c: G.Limits, g: G.State, mark: Mark, gs: seq<G.State>, marks: seq<Mark>)
    requires FollowMarks(c, gs, marks) && Marked(c, g, mark, gs[0])
    ensures FollowMarks(c, [g] + gs, [mark] + marks)
  {
  }

  lemma {:induction false} RunFollowsMarks(c: G.Limits, s: System, steps: seq<Step>, p: nat)
    requires Runs(c, s, steps) && p < |s.projects|
    ensures FollowMarks(c, GuardsOf(c, s, steps, p), MarksOf(c, s, steps, p))
    ensures p < |After(c, s, steps).projects|
    ensures GuardsOf(c, s, steps, p)[0] == s.projects[p].guard
    ensures GuardsOf(c, s, steps, p)[|steps|] == After(c, s, steps).projects[p].guard
    decreases |steps|
  {
    if steps != [] {
      var s' := Next(c, s, steps[0]);
      StepKeepsCount(c, s, steps[0]);
      StepMarks(c, s, steps[0], p);
      RunFollowsMarks(c, s', steps[1..], p);
      FollowOneMore(c, s.projects[p].guard, MarkOf(s, steps[0], p), GuardsOf(c, s', steps[1..], p), MarksOf(c, s', steps[1..], p));
    }
  }

  /** The failures that the first `n` marks end in, since the last reset. */
  function FailuresInRow(marks: seq<Mark>, n: nat): nat
    requires n <= |marks|
  {
    if n == 0 then 0
    else
      match marks[n - 1]
      case Nothing => FailuresInRow(marks, n - 1)
      case Outcome(failed) => if failed then FailuresInRow(marks, n - 1) + 1 else 0
      case Restart => 0
  }

  lemma {:induction false} MarksAreCounted(c: G.Limits, gs: seq<G.State>, marks: seq<Mark>, n: nat)
    requires n <= |marks| && FollowMarks(c, gs, marks) && gs[0].failures == 0
    ensures gs[n].failures == FailuresInRow(marks, n)
  {
    if n > 0 {
      MarksAreCounted(c, gs, marks, n - 1);
      assert Marked(c, gs[n - 1], marks[n - 1], gs[n]);
    }
  }

  predicate NoRestart(marks: seq<Mark>, k: nat, n: nat)
    requires k <= n <= |marks|
    decreases n - k
  {
    k == n || (marks[n - 1] != Restart && NoRestart(marks, k, n - 1))
  }

  /** After `k` steps the threshold is reached before a rate trip, and no reset follows up to step `n`. */
  ghost predicate Fails(c: G.Limits, gs: seq<G.State>, marks: seq<Mark>, k: nat, n: nat)
    requires k <= n <= |marks| && |gs| == |marks| + 1
  {
    FailuresInRow(marks, k) >= Max(1, c.threshold) && gs[k].tripped != Some(G.Rate) && NoRestart(marks, k, n)
  }

  lemma {:induction false} MarksTrip(c: G.Limits, gs: seq<G.State>, marks: seq<Mark>, n: nat)
    requires n <= |marks| && FollowMarks(c, gs, marks) && gs[0].failures == 0 && gs[0].tripped.None?
    ensures gs[n].tripped == Some(G.Failures) <==> exists k :: 0 <= k <= n && Fails(c, gs, marks, k, n)
  {
    if n > 0 {
      MarksTrip(c, gs, marks, n - 1);
      MarksAreCounted(c, gs, marks, n - 1);
      MarksAreCounted(c, gs, marks, n);
      var g, mark, g' := gs[n - 1], marks[n - 1], gs[n];
      assert Marked(c, g, mark, g');
      if g'.tripped == Some(G.Failures) {
        if g.tripped == Some(G.Failures) && mark != Restart {
          var k :| 0 <= k <= n - 1 && Fails(c, gs, marks, k, n - 1);
          assert Fails(c, gs, marks, k, n);
        } else {
          assert Fails(c, gs, marks, n, n);
        }
      }
      if k :| 0 <= k <= n && Fails(c, gs, marks, k, n) {
        if k < n {
          assert Fails(c, gs, marks, k, n - 1);
        } else if mark == Nothing {
          assert Fails(c, gs, marks, n - 1, n - 1);
        }
        assert g'.tripped.Some? && g'.tripped.value == G.Failures;
      }
    }
  }

  /** Over every run: the breaker counts the failures in a row of noted outcomes and full runs together. Automatic
      ingest stops for failures exactly when `threshold` of them came since the last reset, before a rate trip. */
  lemma FailuresAreCounted(c: G.Limits, s: System, steps: seq<Step>, p: nat)
    requires Runs(c, s, steps) && p < |s.projects| && s.projects[p].guard.failures == 0 && s.projects[p].guard.tripped.None?
    ensures p < |After(c, s, steps).projects|
    ensures var g, gs, marks := After(c, s, steps).projects[p].guard, GuardsOf(c, s, steps, p), MarksOf(c, s, steps, p);
      && g.failures == FailuresInRow(marks, |marks|)
      && (g.tripped == Some(G.Failures) <==> exists k :: 0 <= k <= |marks| && Fails(c, gs, marks, k, |marks|))
  {
    RunFollowsMarks(c, s, steps, p);
    MarksAreCounted(c, GuardsOf(c, s, steps, p), MarksOf(c, s, steps, p), |steps|);
    MarksTrip(c, GuardsOf(c, s, steps, p), MarksOf(c, s, steps, p), |steps|);
  }

  lemma ProjectStepSettles(c: G.Limits, p: Project, st: Step, tick: nat, j: nat)
    requires st.BeginJob? ==> CanBegin(p, st.j)
    requires st.FinishJob? ==> CanFinish(p, st.j)
    ensures var ph, ph' := PhaseIn(p, j), PhaseIn(OnProject(c, p, st, tick), j);
      && (ph.Settled? ==> ph' == ph)
      && (ph'.Settled? ==> ph' == ph || (st.FinishJob? && st.j == j && st.ok == ph'.ok))
  {
  }

  lemma LimiterStepSettles(s: System, st: Step, p: nat, j: nat)
    requires LimiterInv(s.limiter, s.holders, s.woken, s.projects) && AtLimiter(s, st)
    ensures var who := Client(p, j);
      PhaseAt(s.projects, who).Settled? || PhaseAt(LimiterNext(s, st).projects, who).Settled? ==>
        PhaseAt(LimiterNext(s, st).projects, who) == PhaseAt(s.projects, who)
  {
    var who, me, q := Client(p, j), Client(st.p, st.j), s.limiter.waiters;
    if st.Release? {
      PutPhaseAt(s.projects, me, Closing, who);
      if q != [] {
        assert q[0] in q;
        PutPhaseAt(s.projects, me, Closing, q[0]);
        PutPhaseAt(PutPhase(s.projects, me, Closing), q[0], Woken, who);
      }
    } else {
      PutPhaseAt(s.projects, me, if L.Arrive(s.limiter, me).1 then Holding else Parked, who);
    }
  }

  lemma OnlyFinishSettles(c: G.Limits, s: System, st: Step, p: nat, j: nat)
    requires Inv(c, s) && Enabled(s, st) && p < |s.projects| == |Next(c, s, st).projects|
    ensures var ph, ph' := PhaseIn(s.projects[p], j), PhaseIn(Next(c, s, st).projects[p], j);
      && (ph.Settled? ==> ph' == ph)
      && (ph'.Settled? ==> ph' == ph || st == FinishJob(p, j, ph'.ok))
  {
    if OnLimiter(st) {
      LimiterStepSettles(s, st, p, j);
    } else if st.p == p {
      ProjectStepSettles(c, s.projects[p], st, s.tick, j);
    }
  }

  lemma StepSettles(c: G.Limits, s: System, st: Step, p: nat, j: nat)
    requires Inv(c, s) && Enabled(s, st) && p < |s.projects|
    ensures Inv(c, Next(c, s, st)) && |Next(c, s, st).projects| == |s.projects|
    ensures var ph, ph' := PhaseIn(s.projects[p], j), PhaseIn(Next(c, s, st).projects[p], j);
      && (ph.Settled? ==> ph' == ph)
      && (ph'.Settled? ==> ph' == ph || st == FinishJob(p, j, ph'.ok))
  {
    StepKeepsCount(c, s, st);
    StepKeepsInv(c, s, st);
    OnlyFinishSettles(c, s, st, p, j);
  }

  /** Over every run: a settled body stays as it settled, and settled with the outcome that it finished with. */
  lemma {:induction false} SettledAsFinished(c: G.Limits, s: System, steps: seq<Step>, p: nat, j: nat)
    requires Inv(c, s) && Runs(c, s, steps) && p < |s.projects|
    ensures |After(c, s, steps).projects| == |s.projects|
    ensures var ph, end := PhaseIn(s.projects[p], j), PhaseIn(After(c, s, steps).projects[p], j);
      && (ph.Settled? ==> end == ph)
      && (end.Settled? ==> end == ph || FinishJob(p, j, end.ok) in steps)
    decreases |steps|
  {
    if steps != [] {
      StepSettles(c, s, steps[0], p, j);
      SettledAsFinished(c, Next(c, s, steps[0]), steps[1..], p, j);
      assert forall st :: st in steps <==> st == steps[0] || st in steps[1..];
    }
  }

  // ---------------------------------------------------------------- progress

  predicate Outstanding(p: Project) {
    || (exists j :: 0 <= j < |p.jobs| && !p.jobs[j].phase.Settled?)
    || (exists k :: 0 <= k < |p.runs| && !p.runs[k].Ended?)
  }

  /** The job whose turn it is. */
  lemma {:induction false} FirstUnsettled(jobs: seq<Job>, j: nat) returns (i: nat)
    requires j < |jobs| && !jobs[j].phase.Settled?
    ensures i <= j && !jobs[i].phase.Settled? && (i > 0 ==> jobs[i - 1].phase.Settled?)
    decreases j
  {
    if j > 0 && !jobs[j - 1].phase.Settled? {
      i := FirstUnsettled(jobs, j - 1);
    } else {
      i := j;
    }
  }

  /** It can move, or it is parked and then someone else can. */
  lemma UnsettledJobCanMove(c: G.Limits, s: System, p: nat, j: nat) returns (st: Step)
    requires Inv(c, s) && p < |s.projects| && j < |s.projects[p].jobs| && !s.projects[p].jobs[j].phase.Settled?
    requires j > 0 ==> s.projects[p].jobs[j - 1].phase.Settled?
    ensures Internal(st) && Enabled(s, st)
  {
    var q := s.projects[p];
    ProjectAt(c, s.projects, |s.projects|, s.tick, p);
    match q.jobs[j].phase {
      case Queued => st := BeginJob(p, j, 0);
      case Working => st := Enter(p, j);
      case Woken => st := Resume(p, j);
      case Holding =>
        assert PhaseAt(s.projects, Client(p, j)) == Holding;
        st := Release(p, j);
      case Closing => st := FinishJob(p, j, true);
      case Parked => st := SomeoneHoldsTheSlot(c, s, Client(p, j));
    }
  }

  lemma SomeoneHoldsTheSlot(c: G.Limits, s: System, who: Client) returns (st: Step)
    requires Inv(c, s) && PhaseAt(s.projects, who) == Parked
    ensures Internal(st) && Enabled(s, st)
  {
    assert who in s.limiter.waiters;
    if s.limiter.active > 0 {
      var h :| h in s.holders;
      assert PhaseAt(s.projects, h) == Holding;
      st := Release(h.p, h.j);
    } else {
      var w :| w in s.woken;
      assert PhaseAt(s.projects, w) == Woken;
      st := Resume(w.p, w.j);
    }
  }

  lemma UnendedRunCanMove(c: G.Limits, s: System, p: nat, k: nat) returns (st: Step)
    requires Inv(c, s) && p < |s.projects| && k < |s.projects[p].runs| && !s.projects[p].runs[k].Ended?
    requires forall j :: 0 <= j < |s.projects[p].jobs| ==> s.projects[p].jobs[j].phase.Settled?
    ensures Internal(st) && Enabled(s, st)
  {
    var q := s.projects[p];
    ProjectAt(c, s.projects, |s.projects|, s.tick, p);
    assert forall j :: 0 <= j < |q.jobs| ==> q.jobs[j].phase != Queued;
    st := if q.runs[k].Sleeping? then WakeRun(p, k + 1) else End(p, k + 1);
  }

  /** No deadlock: while any project has outstanding work, some step that
      serves outstanding work is enabled. */
  lemma NeverStuck(c: G.Limits, s: System, p: nat) returns (st: Step)
    requires Inv(c, s) && p < |s.projects| && Outstanding(s.projects[p])
    ensures Internal(st) && Enabled(s, st)
  {
    var q := s.projects[p];
    if j: nat :| j < |q.jobs| && !q.jobs[j].phase.Settled? {
      var i := FirstUnsettled(q.jobs, j);
      st := UnsettledJobCanMove(c, s, p, i);
    } else {
      var k: nat :| k < |q.runs| && !q.runs[k].Ended?;
      st := UnendedRunCanMove(c, s, p, k);
    }
  }

  // ---------------------------------------------------------------- draining

  /** What is left to do for a job or a full run. */
  function JobWork(ph: Phase): nat {
    match ph
    case Queued => 6
    case Working => 5
    case Woken => 4
    case Parked => 3
    case Holding => 3
    case Closing => 1
    case Settled(_) => 0
  }

  function RunWork(r: RunPhase): nat {
    if r.Sleeping? then 8 else if r.Ended? then 0 else 1
  }

  function JobsWork(jobs: seq<Job>, n: nat): nat
    requires n <= |jobs|
  {
    if n == 0 then 0 else JobsWork(jobs, n - 1) + JobWork(jobs[n - 1].phase)
  }

  function RunsWork(runs: seq<RunPhase>, n: nat): nat
    requires n <= |runs|
  {
    if n == 0 then 0 else RunsWork(runs, n - 1) + RunWork(runs[n - 1])
  }

  function ProjectWork(p: Project): nat {
    JobsWork(p.jobs, |p.jobs|) + RunsWork(p.runs, |p.runs|)
  }

  function Work(ps: seq<Project>, n: nat): nat
    requires n <= |ps|
  {
    if n == 0 then 0 else Work(ps, n - 1) + ProjectWork(ps[n - 1])
  }

  lemma {:induction false} JobsWorkUpdate(jobs: seq<Job>, n: nat, j: nat, job: Job)
    requires n <= |jobs| && j < |jobs|
    ensures JobsWork(jobs[j := job], n)
         == JobsWork(jobs, n) + if j < n then JobWork(job.phase) - JobWork(jobs[j].phase) else 0
  {
    if n > 0 {
      JobsWorkUpdate(jobs, n - 1, j, job);
    }
  }

  lemma {:induction false} JobsWorkAppend(jobs: seq<Job>, n: nat, job: Job)
    requires n <= |jobs|
    ensures JobsWork(jobs + [job], n) == JobsWork(jobs, n)
  {
    if n > 0 {
      JobsWorkAppend(jobs, n - 1, job);
    }
  }

  lemma {:induction false} RunsWorkUpdate(runs: seq<RunPhase>, n: nat, k: nat, r: RunPhase)
    requires n <= |runs| && k < |runs|
    ensures RunsWork(runs[k := r], n) == RunsWork(runs, n) + if k < n then RunWork(r) - RunWork(runs[k]) else 0
  {
    if n > 0 {
      RunsWorkUpdate(runs, n - 1, k, r);
    }
  }

  lemma {:induction false} WorkUpdate(ps: seq<Project>, n: nat, i: nat, p: Project)
    requires n <= |ps| && i < |ps|
    ensures Work(ps[i := p], n) == Work(ps, n) + if i < n then ProjectWork(p) - ProjectWork(ps[i]) else 0
  {
    if n > 0 {
      WorkUpdate(ps, n - 1, i, p);
    }
  }

  lemma PutPhaseWork(ps: seq<Project>, who: Client, ph: Phase)
    requires who.p < |ps| && who.j < |ps[who.p].jobs|
    ensures var ps' := PutPhase(ps, who, ph);
      |ps'| == |ps| && Work(ps', |ps'|) == Work(ps, |ps|) + JobWork(ph) - JobWork(PhaseAt(ps, who))
  {
    var p := ps[who.p];
    JobsWorkUpdate(p.jobs, |p.jobs|, who.j, p.jobs[who.j].(phase := ph));
    WorkUpdate(ps, |ps|, who.p, SetPhase(p, who.j, ph));
  }

  lemma WakeWorks(p: Project, id: nat)
    requires CanWake(p, id)
    ensures ProjectWork(Wake(p, id)) < ProjectWork(p)
  {
    var p' := Wake(p, id);
    RunsWorkUpdate(p.runs, |p.runs|, id - 1, p'.runs[id - 1]);
    if !p.guard.tripped.Some? {
      JobsWorkAppend(p.jobs, |p.jobs|, p'.jobs[|p.jobs|]);
    }
  }

  lemma BeginWorks(c: G.Limits, p: Project, j: nat, t: int, tick: nat)
    requires CanBegin(p, j)
    requires p.jobs[j].kind.Full? ==> RunWork(p.runs[p.jobs[j].kind.id - 1]) >= 1
    ensures ProjectWork(Begin(c, p, j, t, tick)) < ProjectWork(p)
  {
    var p' := Begin(c, p, j, t, tick);
    JobsWorkUpdate(p.jobs, |p.jobs|, j, p'.jobs[j]);
    if p.jobs[j].kind.Full? {
      var id := p.jobs[j].kind.id;
      RunsWorkUpdate(p.runs, |p.runs|, id - 1, p'.runs[id - 1]);
    }
  }

  /** Every step on one project that serves work leaves less of it. */
  lemma OnProjectWorks(c: G.Limits, p: Project, st: Step, tick: nat)
    requires st.WakeRun? ==> CanWake(p, st.id)
    requires st.BeginJob? ==> CanBegin(p, st.j)
    requires st.FinishJob? ==> CanFinish(p, st.j)
    requires st.End? ==> CanEnd(p, st.id)
    requires st.BeginJob? && p.jobs[st.j].kind.Full? ==> RunWork(p.runs[p.jobs[st.j].kind.id - 1]) >= 1
    requires st.WakeRun? || st.BeginJob? || st.FinishJob? || st.End?
    ensures ProjectWork(OnProject(c, p, st, tick)) < ProjectWork(p)
  {
    var p' := OnProject(c, p, st, tick);
    match st {
      case WakeRun(_, id) => WakeWorks(p, id);
      case BeginJob(_, j, t) => BeginWorks(c, p, j, t, tick);
      case FinishJob(_, j, ok) => JobsWorkUpdate(p.jobs, |p.jobs|, j, p'.jobs[j]);
      case End(_, id) => RunsWorkUpdate(p.runs, |p.runs|, id - 1, p'.runs[id - 1]);
    }
  }

  lemma ReleaseWorks(s: System, who: Client)
    requires LimiterInv(s.limiter, s.holders, s.woken, s.projects)
    requires PhaseAt(s.projects, who) == Holding && s.limiter.active > 0
    ensures var ps' := GiveBack(s, who).projects; Work(ps', |ps'|) < Work(s.projects, |s.projects|)
  {
    var ps, q := s.projects, s.limiter.waiters;
    PutPhaseWork(ps, who, Closing);
    if q != [] {
      assert q[0] in q;
      PutPhaseAt(ps, who, Closing, q[0]);
      PutPhaseWork(PutPhase(ps, who, Closing), q[0], Woken);
    }
  }

  lemma LimiterStepWorks(s: System, st: Step)
    requires LimiterInv(s.limiter, s.holders, s.woken, s.projects) && AtLimiter(s, st)
    ensures var ps' := LimiterNext(s, st).projects; Work(ps', |ps'|) < Work(s.projects, |s.projects|)
  {
    var who := Client(st.p, st.j);
    if st.Release? {
      ReleaseWorks(s.(tick := s.tick + 1), who);
    } else {
      PutPhaseWork(s.projects, who, if L.Arrive(s.limiter, who).1 then Holding else Parked);
    }
  }

  lemma ProjectStepWorks(c: G.Limits, s: System, st: Step)
    requires ProjectsInv(c, s.projects, |s.projects|, s.tick) && Enabled(s, st) && Internal(st) && !OnLimiter(st)
    ensures var ps' := ProjectNext(c, s, st).projects; Work(ps', |ps'|) < Work(s.projects, |s.projects|)
  {
    var ps, p := s.projects, s.projects[st.p];
    if st.BeginJob? && p.jobs[st.j].kind.Full? {
      ProjectAt(c, s.projects, |s.projects|, s.tick, st.p);
      ChainedIsQueued(p.guard.queued, p.jobs, p.runs, p.begun, st.j);
    }
    OnProjectWorks(c, p, st, s.tick);
    WorkUpdate(ps, |ps|, st.p, OnProject(c, p, st, s.tick));
  }

  lemma InternalStepWorks(c: G.Limits, s: System, st: Step)
    requires Inv(c, s) && Enabled(s, st) && Internal(st)
    ensures var s' := Next(c, s, st); Work(s'.projects, |s'.projects|) < Work(s.projects, |s.projects|)
  {
    if OnLimiter(st) {
      LimiterStepWorks(s, st);
    } else {
      ProjectStepWorks(c, s, st);
    }
  }

  /** Nothing that serves outstanding work is possible any more. */
  ghost predicate IsQuiet(s: System) {
    forall st :: Internal(st) ==> !Enabled(s, st)
  }

  lemma QuietHasNothingLeft(c: G.Limits, s: System)
    requires Inv(c, s) && IsQuiet(s)
    ensures forall p :: 0 <= p < |s.projects| ==> !Outstanding(s.projects[p])
  {
    forall p | 0 <= p < |s.projects|
      ensures !Outstanding(s.projects[p])
    {
      if Outstanding(s.projects[p]) {
        var st := NeverStuck(c, s, p);
      }
    }
  }

  /** Left alone, the daemon finishes: however its steps are scheduled, no more
      than `Work` of them are taken, and one is possible until nothing is left. */
  lemma {:induction false} DrainsInBoundedSteps(c: G.Limits, s: System, steps: seq<Step>)
    requires Inv(c, s) && Runs(c, s, steps) && forall i :: 0 <= i < |steps| ==> Internal(steps[i])
    ensures |steps| <= Work(s.projects, |s.projects|)
    ensures var end := After(c, s, steps);
      IsQuiet(end) ==> forall p :: 0 <= p < |end.projects| ==> !Outstanding(end.projects[p])
    decreases |steps|
  {
    if steps == [] {
      if IsQuiet(s) {
        QuietHasNothingLeft(c, s);
      }
    } else {
      StepKeepsInv(c, s, steps[0]);
      InternalStepWorks(c, s, steps[0]);
      DrainsInBoundedSteps(c, Next(c, s, steps[0]), steps[1..]);
    }
  }
}
