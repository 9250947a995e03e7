/** The live branch re-point and its poller (daemon/src/cli/daemon.ts): the
    atomic steps between awaits, with every answer of the file system, the
    database and the ingest as a nondeterministic outcome. */
module Repoint {
  import opened Common

  /** A branch key; `None` outside a repository. */
  type Key = Option<string>

  /** What is served: an open handle, its file, and the branch it belongs to. */
  datatype DbRef = DbRef(current: nat, path: string, key: Key)

  /** The one attempt that may be under way. */
  datatype Flight =
    | Idle
    | Waiting(wanted: Key)
    | Freshening(next: nat, target: string, targetKey: Key)
    | Returned(path: string, key: Key, aborted: bool)
    | Rejected

  datatype Poller = Poller(last: Key, attempted: Key, failKey: Key, failures: nat, retryAfter: int)

  /** Handles opened and not closed; `leaked` ones nobody refers to any more. */
  datatype Handles = Handles(open: set<nat>, leaked: set<nat>, unused: nat)

  datatype State = State(ref: DbRef, flight: Flight, poller: Poller, handles: Handles)

  datatype OpenOutcome = OpenThrows | TooNew(closed: bool) | MigrateThrows | Migrated

  datatype BeginOutcome = ResolveThrows | Resolved(path: string, key: Key, opening: OpenOutcome)

  /** The integrity check's answer; `None` when it throws. */
  type Integrity = Option<(bool, nat)>

  datatype Step =
    | Poll(head: Option<Key>, now: int, admitted: bool)
    | Begin(outcome: BeginOutcome)
    | EndFreshen(freshenOk: bool, integrity: Integrity, closed: bool)
    | Settle(now: int)

  const RETRY_BASE_MS := 5_000
  const RETRY_MAX_MS := 300_000

  function Power2(n: nat): nat {
    if n == 0 then 1 else 2 * Power2(n - 1)
  }

  function Delay(failures: nat): nat
    requires failures > 0
  {
    Min(RETRY_BASE_MS * Power2(failures - 1), RETRY_MAX_MS)
  }

  // ---------------------------------------------------------------- the steps

  function Open(h: Handles): Handles {
    h.(open := h.open + {h.unused}, unused := h.unused + 1)
  }

  /** A handle that is given up is closed, or leaks if closing fails or is not tried. */
  function GiveUp(h: Handles, id: nat, closed: bool): Handles {
    if closed then h.(open := h.open - {id}) else h.(leaked := h.leaked + {id})
  }

  /** The attempt's turn on the ingest chain: resolve, open and migrate the target. */
  function AfterBegin(s: State, o: BeginOutcome): State {
    match o
    case ResolveThrows => s.(flight := Rejected)
    case Resolved(path, key, opening) =>
      if path == s.ref.path then s.(ref := s.ref.(key := key), flight := Returned(path, key, false))
      else
        var next := s.handles.unused;
        match opening
        case OpenThrows => s.(flight := Rejected)
        case TooNew(closed) =>
          s.(flight := Returned(s.ref.path, s.ref.key, true), handles := GiveUp(Open(s.handles), next, closed))
        case MigrateThrows => s.(flight := Rejected, handles := GiveUp(Open(s.handles), next, false))
        case Migrated => s.(flight := Freshening(next, path, key), handles := Open(s.handles))
  }

  /** A freshen that completed, or real content that passes the integrity check. */
  predicate Servable(freshenOk: bool, integrity: (bool, nat)) {
    freshenOk || (integrity.0 && integrity.1 > 0)
  }

  /** The freshen ended, one way or the other: swap or give up. */
  function AfterFreshen(s: State, freshenOk: bool, integrity: Integrity, closed: bool): State
    requires s.flight.Freshening?
  {
    var f := s.flight;
    if integrity.None? then s.(flight := Rejected, handles := GiveUp(s.handles, f.next, false))
    else if !Servable(freshenOk, integrity.value) then
      s.(flight := Returned(s.ref.path, s.ref.key, true), handles := GiveUp(s.handles, f.next, closed))
    else
      State(DbRef(f.next, f.target, f.targetKey), Returned(f.target, f.targetKey, false), s.poller,
            GiveUp(s.handles, s.ref.current, closed))
  }

  function NoteFailure(p: Poller, key: Key, now: int): Poller {
    var failures := if key == p.failKey then p.failures + 1 else 1;
    p.(failKey := key, failures := failures, retryAfter := now + Delay(failures))
  }

  function ClearFailure(p: Poller): Poller {
    p.(failKey := None, failures := 0, retryAfter := 0)
  }

  /** A tick starts an attempt: the key differs, no backoff holds it, and the guard admits it. */
  predicate Starts(p: Poller, flight: Flight, head: Option<Key>, now: int, admitted: bool) {
    && flight.Idle? && head.Some? && head.value != p.last
    && !(head.value == p.failKey && now < p.retryAfter) && admitted
  }

  function AfterPoll(s: State, head: Option<Key>, now: int, admitted: bool): State {
    if !Starts(s.poller, s.flight, head, now, admitted) then s
    else
      var key := head.value;
      s.(poller := s.poller.(last := key, attempted := key),
         flight := if key.None? then Returned(s.ref.path, s.ref.key, false) else Waiting(key))
  }

  /** The promise's continuation. */
  function AfterSettle(s: State, now: int): State
    requires s.flight.Returned? || s.flight.Rejected?
  {
    var p := s.poller;
    match s.flight
    case Returned(_, key, aborted) =>
      var p' := p.(last := key);
      s.(poller := if aborted then NoteFailure(p', p.attempted, now) else ClearFailure(p'), flight := Idle)
    case Rejected => s.(poller := NoteFailure(p, p.attempted, now), flight := Idle)
  }

  predicate Enabled(s: State, step: Step) {
    match step
    case Poll(_, _, _) => true
    case Begin(_) => s.flight.Waiting?
    case EndFreshen(_, _, _) => s.flight.Freshening?
    case Settle(_) => s.flight.Returned? || s.flight.Rejected?
  }

  function Next(s: State, step: Step): State
    requires Enabled(s, step)
  {
    match step
    case Poll(head, now, admitted) => AfterPoll(s, head, now, admitted)
    case Begin(o) => AfterBegin(s, o)
    case EndFreshen(ok, integrity, closed) => AfterFreshen(s, ok, integrity, closed)
    case Settle(now) => AfterSettle(s, now)
  }

  /** Served and tracked agree at the start. */
  function Start(path: string, key: Key): State {
    State(DbRef(0, path, key), Idle, Poller(key, None, None, 0, 0), Handles({0}, {}, 1))
  }

  // ---------------------------------------------------------------- what every step keeps

  /** What a returned attempt reports is what is served. */
  ghost predicate ReportInv(s: State) {
    s.flight.Returned? ==> s.flight.path == s.ref.path && s.flight.key == s.ref.key
  }

  /** The open handles are the served one, the one being freshened and the leaked ones. */
  ghost predicate HandleInv(s: State) {
    && s.handles.open == {s.ref.current} + s.handles.leaked + (if s.flight.Freshening? then {s.flight.next} else {})
    && s.ref.current !in s.handles.leaked
    && (s.flight.Freshening? ==> s.flight.next !in s.handles.leaked && s.flight.next != s.ref.current)
    && forall id :: id in s.handles.open ==> id < s.handles.unused
  }

  /** An attempt is for the branch that the poller claimed. */
  ghost predicate ClaimInv(s: State) {
    !s.flight.Idle? ==> s.poller.last == s.poller.attempted
  }

  ghost predicate Inv(s: State) {
    ReportInv(s) && HandleInv(s) && ClaimInv(s)
  }

  lemma StepKeepsInv(s: State, step: Step)
    requires Inv(s) && Enabled(s, step)
    ensures Inv(Next(s, step))
  {
  }

  /** The state after the first `n` steps; a step that is not enabled does not happen. */
  ghost function After(s: State, steps: seq<Step>, n: nat): State
    requires n <= |steps|
  {
    if n == 0 then s
    else
      var before := After(s, steps, n - 1);
      if Enabled(before, steps[n - 1]) then Next(before, steps[n - 1]) else before
  }

  lemma {:induction false} RunKeepsInv(s: State, steps: seq<Step>, n: nat)
    requires n <= |steps| && Inv(s)
    ensures Inv(After(s, steps, n))
  {
    if n > 0 {
      RunKeepsInv(s, steps, n - 1);
      if Enabled(After(s, steps, n - 1), steps[n - 1]) {
        StepKeepsInv(After(s, steps, n - 1), steps[n - 1]);
      }
    }
  }

  // ---------------------------------------------------------------- what is served

  /** The `b`-th step opened and migrated this handle, as the next fresh one, for another file than the served one. */
  ghost predicate OpenedAt(s: State, steps: seq<Step>, b: nat, next: nat, path: string, key: Key)
    requires b < |steps|
  {
    var before := After(s, steps, b);
    && before.flight.Waiting? && steps[b] == Begin(Resolved(path, key, Migrated))
    && path != before.ref.path && next == before.handles.unused
  }

  /** The `e`-th step ended the freshening of this handle, and its index can be served. */
  ghost predicate FreshenedAt(s: State, steps: seq<Step>, e: nat, next: nat, path: string, key: Key)
    requires e < |steps|
  {
    && After(s, steps, e).flight == Freshening(next, path, key)
    && steps[e].EndFreshen? && steps[e].integrity.Some? && Servable(steps[e].freshenOk, steps[e].integrity.value)
  }

  /** The `k`-th step resolved the branch `key` to the file `path`. */
  ghost predicate ResolvedAt(s: State, steps: seq<Step>, k: nat, path: string, key: Key)
    requires k < |steps|
  {
    After(s, steps, k).flight.Waiting? && steps[k].Begin? && steps[k].outcome.Resolved?
    && steps[k].outcome.path == path && steps[k].outcome.key == key
  }

  /** Over every run: what is being freshened was opened and migrated in this run. */
  lemma {:induction false} FreshenedWasOpened(s: State, steps: seq<Step>, n: nat)
    requires n <= |steps| && s.flight.Idle?
    ensures var f := After(s, steps, n).flight;
      f.Freshening? ==> exists b :: 0 <= b < n && OpenedAt(s, steps, b, f.next, f.target, f.targetKey)
  {
    if n > 0 {
      FreshenedWasOpened(s, steps, n - 1);
      var f := After(s, steps, n).flight;
      if f.Freshening? && After(s, steps, n - 1).flight != f {
        assert OpenedAt(s, steps, n - 1, f.next, f.target, f.targetKey);
      }
    }
  }

  /** Over every run: a served handle and file other than the first ones were opened
      and migrated, and then freshened to an index that can be served, in this run. */
  lemma {:induction false} SwapIsSafe(s: State, steps: seq<Step>, n: nat)
    requires n <= |steps| && s.flight.Idle?
    ensures var r := After(s, steps, n).ref;
      r.current != s.ref.current || r.path != s.ref.path ==>
        exists b, e, key :: 0 <= b < e < n && OpenedAt(s, steps, b, r.current, r.path, key)
                            && FreshenedAt(s, steps, e, r.current, r.path, key)
  {
    if n > 0 {
      SwapIsSafe(s, steps, n - 1);
      var before, r := After(s, steps, n - 1), After(s, steps, n).ref;
      if r.current != before.ref.current || r.path != before.ref.path {
        FreshenedWasOpened(s, steps, n - 1);
        var b :| 0 <= b < n - 1 && OpenedAt(s, steps, b, r.current, r.path, r.key);
        assert FreshenedAt(s, steps, n - 1, r.current, r.path, r.key);
      }
    }
  }

  /** Over every run: a served file and key other than the first ones are an answer of the resolver in this run. */
  lemma {:induction false} ServedWasResolved(s: State, steps: seq<Step>, n: nat)
    requires n <= |steps| && s.flight.Idle?
    ensures var r := After(s, steps, n).ref;
      r.path != s.ref.path || r.key != s.ref.key ==>
        exists k :: 0 <= k < n && ResolvedAt(s, steps, k, r.path, r.key)
  {
    if n > 0 {
      ServedWasResolved(s, steps, n - 1);
      var before, r := After(s, steps, n - 1), After(s, steps, n).ref;
      if r.path != before.ref.path || r.key != before.ref.key {
        if before.flight.Waiting? {
          assert ResolvedAt(s, steps, n - 1, r.path, r.key);
        } else {
          FreshenedWasOpened(s, steps, n - 1);
          var b :| 0 <= b < n - 1 && OpenedAt(s, steps, b, before.flight.next, r.path, r.key);
          assert ResolvedAt(s, steps, b, r.path, r.key);
        }
      }
    }
  }

  // ---------------------------------------------------------------- which handles stay open

  /** Closing fails, or the attempt rejects after it opened the target. */
  predicate Accident(s: State, step: Step) {
    || (step.Begin? && step.outcome.Resolved? && step.outcome.path != s.ref.path
        && (step.outcome.opening.MigrateThrows? || step.outcome.opening == TooNew(false)))
    || (step.EndFreshen? && (step.integrity.None? || !step.closed))
  }

  /** A handle leaks exactly on an accident, and never comes back. */
  lemma LeaksOnlyByAccident(s: State, step: Step)
    requires Inv(s) && Enabled(s, step)
    ensures s.handles.leaked <= Next(s, step).handles.leaked
    ensures Next(s, step).handles.leaked != s.handles.leaked <==> Accident(s, step)
  {
    if step.Begin? {
      assert s.handles.unused !in s.handles.leaked;
    }
    if step.EndFreshen? {
      assert s.flight.next !in s.handles.leaked && s.ref.current !in s.handles.leaked;
    }
  }

  /** One of the first `n` steps took place as an accident. */
  ghost predicate AccidentBefore(s: State, steps: seq<Step>, n: nat)
    requires n <= |steps|
  {
    exists i :: 0 <= i < n && Enabled(After(s, steps, i), steps[i]) && Accident(After(s, steps, i), steps[i])
  }

  lemma {:induction false} LeaksIffAccident(s: State, steps: seq<Step>, n: nat)
    requires n <= |steps| && Inv(s) && s.handles.leaked == {}
    ensures After(s, steps, n).handles.leaked != {} <==> AccidentBefore(s, steps, n)
  {
    if n > 0 {
      LeaksIffAccident(s, steps, n - 1);
      RunKeepsInv(s, steps, n - 1);
      var before := After(s, steps, n - 1);
      if Enabled(before, steps[n - 1]) {
        LeaksOnlyByAccident(before, steps[n - 1]);
      }
    }
  }

  /** Over every run: whenever nothing is being freshened, the served handle is open,
      and it is the only open one if and only if no step so far was an accident. */
  lemma OneHandleBetweenAttempts(s: State, steps: seq<Step>, n: nat)
    requires n <= |steps| && Inv(s) && s.handles.leaked == {} && !After(s, steps, n).flight.Freshening?
    ensures var end := After(s, steps, n);
      end.ref.current in end.handles.open && (end.handles.open == {end.ref.current} <==> !AccidentBefore(s, steps, n))
  {
    RunKeepsInv(s, steps, n);
    LeaksIffAccident(s, steps, n);
    var end := After(s, steps, n);
    if end.handles.leaked != {} {
      var id :| id in end.handles.leaked;
      assert id in end.handles.open && id != end.ref.current;
    }
  }

  // ---------------------------------------------------------------- agreement of poller and server

  /** With no attempt under way, the tracked key is the served one. */
  predicate Agrees(s: State) {
    s.flight.Idle? ==> s.poller.last == s.ref.key
  }

  /** Whatever was aborted or retried: as long as no attempt rejects, the keys agree between attempts. */
  lemma {:induction false} AgreementWithoutRejection(s: State, steps: seq<Step>, n: nat)
    requires n <= |steps| && Inv(s) && s.flight.Idle? && Agrees(s)
    requires forall i :: 0 <= i <= n ==> !After(s, steps, i).flight.Rejected?
    ensures Agrees(After(s, steps, n))
  {
    if n > 0 {
      AgreementWithoutRejection(s, steps, n - 1);
      RunKeepsInv(s, steps, n - 1);
      assert !After(s, steps, n - 1).flight.Rejected?;
    }
  }

  /** The attempt from the claim of a tick to the end of its continuation. */
  function Attempt(s: State, poll: Step, o: BeginOutcome, ok: bool, integrity: Integrity, closed: bool, now: int): State
    requires poll.Poll? && Starts(s.poller, s.flight, poll.head, poll.now, poll.admitted)
  {
    var s0 := Next(s, poll);
    var s1 := if s0.flight.Waiting? then AfterBegin(s0, o) else s0;
    AfterSettle(if s1.flight.Freshening? then AfterFreshen(s1, ok, integrity, closed) else s1, now)
  }

  /** One whole attempt, whatever came before: afterwards the keys agree if and only if the branch that
      was read is the served one or none, or resolves to the served file, to one that is too new, or
      to one that migrates and answers the integrity check. */
  lemma AttemptAgreesIff(s: State, poll: Step, o: BeginOutcome, ok: bool, integrity: Integrity, closed: bool, now: int)
    requires Inv(s) && poll.Poll? && Starts(s.poller, s.flight, poll.head, poll.now, poll.admitted)
    ensures Agrees(Attempt(s, poll, o, ok, integrity, closed, now)) <==>
      || poll.head.value == s.ref.key || poll.head.value == None
      || (o.Resolved? && (o.path == s.ref.path || o.opening.TooNew? || (o.opening.Migrated? && integrity.Some?)))
  {
    var s0 := Next(s, poll);
    StepKeepsInv(s, poll);
    if s0.flight.Waiting? {
      StepKeepsInv(s0, Begin(o));
      var s1 := AfterBegin(s0, o);
      if s1.flight.Freshening? {
        StepKeepsInv(s1, EndFreshen(ok, integrity, closed));
      }
    }
  }

  /** A freshened index is served if and only if its integrity could be read and the freshen completed
      or the index is intact and holds nodes; in every other case nothing that is served changes. */
  lemma SwapHappensIff(s: State, freshenOk: bool, integrity: Integrity, closed: bool)
    requires Inv(s) && s.flight.Freshening?
    ensures var f, s' := s.flight, Next(s, EndFreshen(freshenOk, integrity, closed));
      && (s'.ref == DbRef(f.next, f.target, f.targetKey) <==>
          integrity.Some? && (freshenOk || (integrity.value.0 && integrity.value.1 > 0)))
      && s'.ref in {s.ref, DbRef(f.next, f.target, f.targetKey)}
      && s'.flight == (if integrity.None? then Rejected
                       else Returned(s'.ref.path, s'.ref.key, s'.ref.current == s.ref.current))
  {
  }

  /** The branch that was resolved gets served: its file is the served one already, or it is
      opened, migrated, and freshened or intact with nodes. */
  predicate Succeeds(served: string, o: BeginOutcome, ok: bool, integrity: Integrity) {
    o.Resolved? && (o.path == served || (o.opening.Migrated? && integrity.Some?
                                         && (ok || (integrity.value.0 && integrity.value.1 > 0))))
  }

  /** One whole attempt for a branch: its file and key are served afterwards if and only if the attempt
      succeeds, and then the backoff is cleared; if not, all that is served stays, and the failure is noted. */
  lemma AttemptServesIff(s: State, poll: Step, o: BeginOutcome, ok: bool, integrity: Integrity, closed: bool, now: int)
    requires Inv(s) && poll.Poll? && Starts(s.poller, s.flight, poll.head, poll.now, poll.admitted)
    requires poll.head.value.Some?
    ensures var end, key := Attempt(s, poll, o, ok, integrity, closed, now), poll.head.value;
      && end.flight.Idle? && end.poller.attempted == key
      && (if Succeeds(s.ref.path, o, ok, integrity) then
            && end.ref.path == o.path && end.ref.key == end.poller.last == o.key
            && (end.ref.current == s.ref.current <==> o.path == s.ref.path)
            && end.poller.failKey == None && end.poller.failures == 0 && end.poller.retryAfter == 0
          else
            var failures := if key == s.poller.failKey then s.poller.failures + 1 else 1;
            && end.ref == s.ref && end.poller.failKey == key && end.poller.failures == failures
            && end.poller.retryAfter == now + Delay(failures))
  {
    var s0 := Next(s, poll);
    StepKeepsInv(s, poll);
    StepKeepsInv(s0, Begin(o));
  }

  /** Outside a repository nothing is tried: what is served stays, and the backoff is cleared. */
  lemma NoBranchClearsBackoff(s: State, poll: Step, o: BeginOutcome, ok: bool, integrity: Integrity, closed: bool, now: int)
    requires Inv(s) && poll.Poll? && Starts(s.poller, s.flight, poll.head, poll.now, poll.admitted)
    requires poll.head.value.None?
    ensures Attempt(s, poll, o, ok, integrity, closed, now)
         == s.(poller := Poller(s.ref.key, None, None, 0, 0), flight := Idle)
  {
  }

  /** A tick starts an attempt exactly when none is under way, a branch was read that is not the tracked one,
      its backoff is over, and the guard admits; any other tick changes nothing. */
  lemma TickStartsIff(s: State, head: Option<Key>, now: int, admitted: bool)
    ensures var s' := Next(s, Poll(head, now, admitted));
      && (s' != s <==> s.flight == Idle && head != None && head != Some(s.poller.last) && admitted
                       && (head == Some(s.poller.failKey) ==> s.poller.retryAfter <= now))
      && (s' != s ==> s'.ref == s.ref && s'.handles == s.handles && s'.poller.last == head.value
                      && s'.flight == if head.value.Some? then Waiting(head.value)
                                      else Returned(s.ref.path, s.ref.key, false))
  {
  }

  lemma {:induction false} ClaimedBranchIsQuiet(s: State, steps: seq<Step>, n: nat)
    requires n <= |steps| && s.flight.Idle?
    requires forall i :: 0 <= i < n && steps[i].Poll? ==> steps[i].head == None || steps[i].head == Some(s.poller.last)
    ensures After(s, steps, n) == s
  {
    if n > 0 {
      ClaimedBranchIsQuiet(s, steps, n - 1);
    }
  }

  /** After a rejection the daemon keeps serving the old branch for as long as
      the polls read the branch that was tried: it is never tried again. */
  lemma RejectionIsNotRetried(s: State, now: int, steps: seq<Step>, n: nat)
    requires n <= |steps| && Inv(s) && s.flight.Rejected?
    requires forall i :: 0 <= i < n && steps[i].Poll? ==> steps[i].head == None || steps[i].head == Some(s.poller.attempted)
    ensures After(AfterSettle(s, now), steps, n) == AfterSettle(s, now) && AfterSettle(s, now).ref == s.ref
  {
    ClaimedBranchIsQuiet(AfterSettle(s, now), steps, n);
  }

  /** Such a run: the resolver throws once, the old branch stays served and no later tick tries the new one. */
  lemma ThrowingResolverStrandsBranch(later: int, admitted: bool)
    ensures var run := [Poll(Some(Some("dev")), 0, true), Begin(ResolveThrows), Settle(0)];
      var end := After(Start("main.db", Some("main")), run, 3);
      && end.flight.Idle? && end.ref.key == Some("main") && end.poller.last == Some("dev")
      && !Starts(end.poller, end.flight, Some(Some("dev")), later, admitted)
  {
    var run := [Poll(Some(Some("dev")), 0, true), Begin(ResolveThrows), Settle(0)];
    var s := Start("main.db", Some("main"));
    assert After(s, run, 0) == s;
    assert After(s, run, 1) == AfterPoll(s, Some(Some("dev")), 0, true);
    assert After(s, run, 2).flight.Rejected?;
  }

  // ---------------------------------------------------------------- backoff

  lemma {:induction false} Power2Grows(n: nat)
    ensures Power2(n) > n
  {
    if n > 0 {
      Power2Grows(n - 1);
    }
  }

  lemma {:induction false} Power2Monotone(m: nat, n: nat)
    requires m <= n
    ensures Power2(m) <= Power2(n)
  {
    if m < n {
      Power2Monotone(m, n - 1);
    }
  }

  /** Doubling from five seconds, five minutes from the seventh failure on. */
  lemma DelayDoublesThenStays(failures: nat)
    requires failures > 0
    ensures failures <= 6 ==> Delay(failures) == RETRY_BASE_MS * Power2(failures - 1)
    ensures failures >= 7 ==> Delay(failures) == RETRY_MAX_MS
    ensures Delay(failures) <= Delay(failures + 1) <= 2 * Delay(failures)
  {
    assert Power2(5) == 32 && Power2(6) == 64;
    if failures >= 7 {
      Power2Monotone(6, failures - 1);
    } else {
      Power2Monotone(failures - 1, 5);
    }
  }

  /** `s` follows a failed attempt on `key` at time `since`. */
  predicate BacksOff(s: State, key: Key, since: int, failures: nat) {
    failures > 0 && s.flight.Idle? && s.poller.failKey == key && s.poller.failures == failures
    && s.poller.retryAfter == since + Delay(failures)
  }

  /** Consecutive failures on one branch are counted, any other branch starts over. */
  lemma FailureCounts(s: State, now: int)
    requires Inv(s) && (s.flight.Rejected? || (s.flight.Returned? && s.flight.aborted))
    ensures BacksOff(AfterSettle(s, now), s.poller.attempted, now,
                     if s.poller.attempted == s.poller.failKey then s.poller.failures + 1 else 1)
  {
  }

  /** Until the delay has passed, no tick starts another attempt on the failed branch. */
  lemma {:induction false} BackoffHolds(s: State, steps: seq<Step>, n: nat, key: Key, since: int, failures: nat)
    requires n <= |steps| && BacksOff(s, key, since, failures)
    requires forall i :: 0 <= i < n && steps[i].Poll? ==> steps[i].now < since + Delay(failures) && steps[i].head == Some(key)
    ensures After(s, steps, n) == s
  {
    if n > 0 {
      BackoffHolds(s, steps, n - 1, key, since, failures);
    }
  }

  /** A checkout of a different branch is never delayed. */
  lemma OtherBranchIsNotDelayed(s: State, key: Key, since: int, failures: nat, head: Key, now: int)
    requires BacksOff(s, key, since, failures) && head != key && head != s.poller.last
    ensures Starts(s.poller, s.flight, Some(head), now, true)
  {
  }

  // ---------------------------------------------------------------- the object

  class BranchPoller {
    var ref: DbRef
    var flight: Flight
    var last: Key
    var attempted: Key
    var failKey: Key
    var failures: nat
    var retryAfter: int
    var handles: Handles

    ghost function View(): State
      reads this
    {
      State(ref, flight, Poller(last, attempted, failKey, failures, retryAfter), handles)
    }

    constructor (path: string, key: Key)
      ensures View() == Start(path, key) && Inv(View())
    {
      ref, flight, last, attempted := DbRef(0, path, key), Idle, key, None;
      failKey, failures, retryAfter, handles := None, 0, 0, Handles({0}, {}, 1);
    }

    method DoPoll(head: Option<Key>, now: int, admitted: bool)
      requires Inv(View())
      modifies this
      ensures View() == AfterPoll(old(View()), head, now, admitted) && Inv(View())
    {
      if !flight.Idle? {
        return;
      }
      if head.None? {
        return;
      }
      var currentKey := head.value;
      if currentKey == last {
        return;
      }
      if currentKey == failKey && now < retryAfter {
        return;
      }
      if !admitted {
        return;
      }
      last, attempted := currentKey, currentKey;
      flight := if currentKey.None? then Returned(ref.path, ref.key, false) else Waiting(currentKey);
    }

    method DoBegin(o: BeginOutcome)
      requires Inv(View()) && flight.Waiting?
      modifies this
      ensures View() == AfterBegin(old(View()), o) && Inv(View())
    {
      if o.ResolveThrows? {
        flight := Rejected;
        return;
      }
      if o.path == ref.path {
        ref := ref.(key := o.key);
        flight := Returned(ref.path, o.key, false);
        return;
      }
      if o.opening.OpenThrows? {
        flight := Rejected;
        return;
      }
      var next := handles.unused;
      handles := Open(handles);
      if o.opening.TooNew? {
        handles := GiveUp(handles, next, o.opening.closed);
        flight := Returned(ref.path, ref.key, true);
        return;
      }
      if o.opening.MigrateThrows? {
        handles := GiveUp(handles, next, false);
        flight := Rejected;
        return;
      }
      flight := Freshening(next, o.path, o.key);
    }

    method DoEndFreshen(freshenOk: bool, integrity: Integrity, closed: bool)
      requires Inv(View()) && flight.Freshening?
      modifies this
      ensures View() == AfterFreshen(old(View()), freshenOk, integrity, closed) && Inv(View())
    {
      if integrity.None? {
        handles := GiveUp(handles, flight.next, false);
        flight := Rejected;
        return;
      }
      var hasContent := freshenOk || (integrity.value.0 && integrity.value.1 > 0);
      if !hasContent {
        handles := GiveUp(handles, flight.next, closed);
        flight := Returned(ref.path, ref.key, true);
        return;
      }
      var previous := ref.current;
      ref := DbRef(flight.next, flight.target, flight.targetKey);
      handles := GiveUp(handles, previous, closed);
      flight := Returned(ref.path, ref.key, false);
    }

    method DoSettle(now: int)
      requires Inv(View()) && (flight.Returned? || flight.Rejected?)
      modifies this
      ensures View() == AfterSettle(old(View()), now) && Inv(View())
    {
      if flight.Returned? {
        last := flight.key;
        if flight.aborted {
          NoteRepointFailure(attempted, now);
        } else {
          failKey, failures, retryAfter := None, 0, 0;
        }
      } else {
        NoteRepointFailure(attempted, now);
      }
      flight := Idle;
    }

    method NoteRepointFailure(key: Key, now: int)
      modifies this`failKey, this`failures, this`retryAfter
      ensures Poller(last, attempted, failKey, failures, retryAfter)
           == NoteFailure(old(Poller(last, attempted, failKey, failures, retryAfter)), key, now)
    {
      failures := if key == failKey then failures + 1 else 1;
      failKey := key;
      retryAfter := now + Delay(failures);
    }
  }
}
