/** The per-project guard on automatic whole-repo ingests: sliding-window rate
    limit, minimum interval, latched breaker and the coalescing slot
    (daemon/src/cli/daemon.ts, `createIngestGuard`).

    `State` is the guard as a value; `Guard` is the object with the code's
    mutable fields, each of its methods one atomic section of the closure. */
module IngestGuard {
  import opened Common

  /** The daemon takes no negative interval. */
  datatype Limits = Limits(threshold: int, minInterval: nat, maxRuns: int, window: int)

  datatype TripReason = Failures | Rate

  /** `history` lists every admission since the last reset, oldest first; the
      code's queue of recent starts is `history[head..]`. */
  datatype State = State(
    failures: nat,
    manualFailed: bool,
    tripped: Option<TripReason>,
    history: seq<int>,
    head: nat,
    lastStart: Option<int>,
    queued: Option<nat>,
    runSeq: nat)

  const INITIAL := State(0, false, None, [], 0, None, None, 0)

  // ---------------------------------------------------------------- atomic sections

  function Trip(g: State, reason: TripReason): State {
    if g.tripped.Some? then g else g.(tripped := Some(reason))
  }

  function Note(c: Limits, g: State, failed: bool): State {
    if !failed then g.(failures := 0)
    else
      var g' := g.(failures := g.failures + 1);
      if g'.failures >= c.threshold then Trip(g', Failures) else g'
  }

  function NoteManual(g: State, failed: bool): State {
    g.(manualFailed := failed)
  }

  /** The first position, from `head` on, that is within `window` of `t`. */
  function Fresh(s: seq<int>, head: nat, t: int, window: int): (h: nat)
    ensures h >= head && (head <= |s| ==> h <= |s|)
    decreases |s| - head
  {
    if head < |s| && t - s[head] > window then Fresh(s, head + 1, t, window) else head
  }

  predicate TooSoon(c: Limits, g: State, t: int) {
    g.lastStart.Some? && t - g.lastStart.value < c.minInterval
  }

  function Admit(c: Limits, g: State, t: int): (State, bool) {
    if g.tripped.Some? then (g, false)
    else
      var g' := g.(head := Fresh(g.history, g.head, t, c.window));
      if |g'.history| - g'.head >= c.maxRuns then (Trip(g', Rate), false)
      else if TooSoon(c, g', t) then (g', false)
      else (g'.(history := g'.history + [t], lastStart := Some(t)), true)
  }

  function ClearSlot(g: State, id: nat): State {
    if g.queued == Some(id) then g.(queued := None) else g
  }

  function TakeSlot(g: State): (State, nat) {
    (g.(queued := Some(g.runSeq + 1), runSeq := g.runSeq + 1), g.runSeq + 1)
  }

  /** The synchronous part of a request: join the queued run or take a new slot. */
  function Request(g: State): (State, nat) {
    if g.queued.Some? then (g, g.queued.value) else TakeSlot(g)
  }

  function Reset(g: State): State {
    g.(failures := 0, tripped := None, history := [], head := 0, lastStart := None)
  }

  // ---------------------------------------------------------------- the invariant
  // Each predicate speaks of the first `n` admissions.

  predicate Sorted(s: seq<int>, n: nat)
    requires n <= |s|
  {
    n <= 1 || (s[n - 2] <= s[n - 1] && Sorted(s, n - 1))
  }

  /** Each admission is at least `gap` after the one before it. */
  predicate Spaced(s: seq<int>, n: nat, gap: int)
    requires n <= |s|
  {
    n <= 1 || (s[n - 2] + gap <= s[n - 1] && Spaced(s, n - 1, gap))
  }

  /** Of any `maxRuns + 1` admissions in a row the outer two are more than a window apart. */
  predicate Windowed(s: seq<int>, n: nat, maxRuns: int, window: int)
    requires n <= |s|
  {
    n == 0
    || (&& maxRuns > 0
        && (n > maxRuns ==> s[n - 1] - s[n - 1 - maxRuns] > window)
        && Windowed(s, n - 1, maxRuns, window))
  }

  predicate AllStale(s: seq<int>, n: nat, t: int, window: int)
    requires n <= |s|
  {
    n == 0 || (t - s[n - 1] > window && AllStale(s, n - 1, t, window))
  }

  /** A pruning that admits nothing, and does not trip either, comes less than an interval after
      the last admission, whatever the clock did: what it drops is stale when the next one is due. */
  predicate Inv(c: Limits, g: State) {
    var s, n := g.history, |g.history|;
    && g.head <= n
    && Sorted(s, n)
    && Spaced(s, n, c.minInterval)
    && Windowed(s, n, c.maxRuns, c.window)
    && (g.tripped.Some? || n == 0 || AllStale(s, g.head, s[n - 1] + c.minInterval, c.window))
    && g.lastStart == (if n == 0 then None else Some(s[n - 1]))
  }

  lemma {:induction false} SortedPair(s: seq<int>, n: nat, i: nat, j: nat)
    requires n <= |s| && Sorted(s, n) && i <= j < n
    ensures s[i] <= s[j]
  {
    if j < n - 1 {
      SortedPair(s, n - 1, i, j);
    } else if i < j {
      SortedPair(s, n - 1, i, j - 1);
    }
  }

  lemma {:induction false} WindowedPair(s: seq<int>, n: nat, maxRuns: int, window: int, i: nat, j: nat)
    requires n <= |s| && Sorted(s, n) && Windowed(s, n, maxRuns, window)
    requires i <= j < n && s[j] - s[i] <= window
    ensures j - i < maxRuns
  {
    if j < n - 1 {
      WindowedPair(s, n - 1, maxRuns, window, i, j);
    } else if j - i >= maxRuns {
      SortedPair(s, n, i, j - maxRuns);
    }
  }

  lemma {:induction false} StalePrefix(s: seq<int>, n: nat, t: int, window: int, i: nat)
    requires n <= |s| && AllStale(s, n, t, window) && i < n
    ensures t - s[i] > window
  {
    if i < n - 1 {
      StalePrefix(s, n - 1, t, window, i);
    }
  }

  lemma {:induction false} StaysStale(s: seq<int>, n: nat, now: int, t: int, window: int)
    requires n <= |s| && AllStale(s, n, now, window) && now <= t
    ensures AllStale(s, n, t, window)
  {
    if n > 0 {
      StaysStale(s, n - 1, now, t, window);
    }
  }

  lemma {:induction false} FreshSkipsStale(s: seq<int>, head: nat, t: int, window: int)
    requires head <= |s| && AllStale(s, head, t, window)
    ensures var h := Fresh(s, head, t, window); AllStale(s, h, t, window) && (h < |s| ==> t - s[h] <= window)
    decreases |s| - head
  {
    if head < |s| && t - s[head] > window {
      FreshSkipsStale(s, head + 1, t, window);
    }
  }

  /** What is stale by the time `due`, and what a pruning drops before that. */
  lemma {:induction false} FreshStaysStale(s: seq<int>, head: nat, t: int, due: int, window: int)
    requires head <= |s| && AllStale(s, head, due, window) && t <= due
    ensures AllStale(s, Fresh(s, head, t, window), due, window)
    decreases |s| - head
  {
    if head < |s| && t - s[head] > window {
      FreshStaysStale(s, head + 1, t, due, window);
    }
  }

  /** The first `n` admissions do not depend on what is appended. */
  lemma {:induction false} Frame(c: Limits, s: seq<int>, n: nat, t: int, at: int)
    requires n <= |s|
    ensures Sorted(s + [t], n) == Sorted(s, n)
    ensures Spaced(s + [t], n, c.minInterval) == Spaced(s, n, c.minInterval)
    ensures Windowed(s + [t], n, c.maxRuns, c.window) == Windowed(s, n, c.maxRuns, c.window)
    ensures AllStale(s + [t], n, at, c.window) == AllStale(s, n, at, c.window)
  {
    if n > 0 {
      Frame(c, s, n - 1, t, at);
    }
  }

  lemma OneMoreAdmission(c: Limits, s: seq<int>, head: nat, t: int)
    requires head <= |s| && AllStale(s, head, t, c.window) && |s| - head < c.maxRuns
    requires Sorted(s, |s|) && Spaced(s, |s|, c.minInterval) && Windowed(s, |s|, c.maxRuns, c.window)
    requires |s| > 0 ==> s[|s| - 1] <= t && t - s[|s| - 1] >= c.minInterval
    ensures var s' := s + [t];
      && Sorted(s', |s'|) && Spaced(s', |s'|, c.minInterval) && Windowed(s', |s'|, c.maxRuns, c.window)
      && AllStale(s', head, t, c.window)
  {
    Frame(c, s, |s|, t, t);
    Frame(c, s, head, t, t);
    if |s| >= c.maxRuns {
      StalePrefix(s, head, t, c.window, |s| - c.maxRuns);
    }
  }

  /** When an interval has passed since the last admission, all that was dropped is stale. */
  lemma DueIsPastPruning(c: Limits, g: State, t: int)
    requires Inv(c, g) && g.tripped.None? && !TooSoon(c, g, t)
    ensures AllStale(g.history, g.head, t, c.window)
  {
    if g.history != [] {
      StaysStale(g.history, g.head, g.history[|g.history| - 1] + c.minInterval, t, c.window);
    }
  }

  /** Whatever time it is asked at. */
  lemma AdmitKeepsInv(c: Limits, g: State, t: int)
    requires Inv(c, g)
    ensures Inv(c, Admit(c, g, t).0)
    ensures Admit(c, g, t).0.history == g.history + if Admit(c, g, t).1 then [t] else []
  {
    if g.tripped.None? {
      var s, h := g.history, Fresh(g.history, g.head, t, c.window);
      if TooSoon(c, g, t) {
        FreshStaysStale(s, g.head, t, s[|s| - 1] + c.minInterval, c.window);
      } else {
        DueIsPastPruning(c, g, t);
        FreshSkipsStale(s, g.head, t, c.window);
        if |s| - h < c.maxRuns {
          OneMoreAdmission(c, s, h, t);
          StaysStale(s + [t], h, t, t + c.minInterval, c.window);
        }
      }
    }
  }

  // ---------------------------------------------------------------- counting admissions

  /** How many of the first `n` admissions lie in the closed interval [lo, hi]. */
  function CountIn(s: seq<int>, n: nat, lo: int, hi: int): nat
    requires n <= |s|
  {
    if n == 0 then 0 else CountIn(s, n - 1, lo, hi) + (if lo <= s[n - 1] <= hi then 1 else 0)
  }

  lemma {:induction false} NoneBefore(s: seq<int>, n: nat, lo: int, hi: int)
    requires n <= |s| && Sorted(s, n) && (n > 0 ==> s[n - 1] < lo)
    ensures CountIn(s, n, lo, hi) == 0
  {
    if n > 0 {
      NoneBefore(s, n - 1, lo, hi);
    }
  }

  /** In a sorted history the entries of an interval are consecutive. */
  lemma {:induction false} CountIsSpan(s: seq<int>, n: nat, lo: int, hi: int) returns (i: nat, j: nat)
    requires n <= |s| && Sorted(s, n) && CountIn(s, n, lo, hi) > 0
    ensures i <= j < n && lo <= s[i] && s[j] <= hi
    ensures CountIn(s, n, lo, hi) == j - i + 1
    ensures s[n - 1] <= hi ==> j == n - 1
  {
    if s[n - 1] > hi {
      i, j := CountIsSpan(s, n - 1, lo, hi);
    } else {
      if s[n - 1] < lo {
        NoneBefore(s, n, lo, hi);
      }
      if CountIn(s, n - 1, lo, hi) > 0 {
        i, j := CountIsSpan(s, n - 1, lo, hi);
      } else {
        i := n - 1;
      }
      j := n - 1;
    }
  }

  lemma CountInWindow(s: seq<int>, maxRuns: int, window: int, lo: int)
    requires Sorted(s, |s|) && Windowed(s, |s|, maxRuns, window)
    ensures CountIn(s, |s|, lo, lo + window) <= Max(0, maxRuns)
  {
    if CountIn(s, |s|, lo, lo + window) > 0 {
      var i, j := CountIsSpan(s, |s|, lo, lo + window);
      WindowedPair(s, |s|, maxRuns, window, i, j);
    }
  }

  lemma {:induction false} GapsAddUp(s: seq<int>, n: nat, gap: int, i: nat, j: nat)
    requires n <= |s| && Spaced(s, n, gap) && i <= j < n
    ensures s[i] + (j - i) * gap <= s[j]
    decreases n
  {
    if j < n - 1 {
      GapsAddUp(s, n - 1, gap, i, j);
    } else if i < j {
      GapsAddUp(s, n - 1, gap, i, j - 1);
      assert (j - i) * gap == (j - 1 - i) * gap + gap;
    }
  }

  lemma ProductGrows(k: int, d: int)
    requires d > 0
    ensures k >= 1 ==> k * d >= d
    ensures k <= -1 ==> k * d <= -d
  {
  }

  lemma QuotientIs(h: int, d: int, q: int)
    requires d > 0 && q * d <= h < q * d + d
    ensures h / d == q
  {
    var e := h / d;
    assert (e - q) * d == e * d - q * d;
    ProductGrows(e - q, d);
  }

  lemma QuotientBound(n: nat, d: int, h: int)
    requires d > 0 && n * d <= h
    ensures n <= h / d
  {
    var q := h / d;
    assert (n - q) * d == n * d - q * d;
    ProductGrows(n - q, d);
  }

  lemma SpanBound(k: nat, gap: int, first: int, last: int, lo: int, horizon: nat)
    requires gap > 0 && first + k * gap <= last && lo <= first && last <= lo + horizon
    ensures k <= horizon / gap
  {
    QuotientBound(k, gap, horizon);
  }

  lemma CountByInterval(s: seq<int>, gap: int, lo: int, horizon: nat)
    requires Sorted(s, |s|) && Spaced(s, |s|, gap) && gap > 0
    ensures CountIn(s, |s|, lo, lo + horizon) <= horizon / gap + 1
  {
    if CountIn(s, |s|, lo, lo + horizon) > 0 {
      var i, j := CountIsSpan(s, |s|, lo, lo + horizon);
      GapsAddUp(s, |s|, gap, i, j);
      SpanBound(j - i, gap, s[i], s[j], lo, horizon);
    }
  }

  lemma {:induction false} CountSplits(s: seq<int>, n: nat, lo: int, mid: int, hi: int)
    requires n <= |s|
    ensures CountIn(s, n, lo, hi) <= CountIn(s, n, lo, mid) + CountIn(s, n, mid, hi)
  {
    if n > 0 {
      CountSplits(s, n - 1, lo, mid, hi);
    }
  }

  lemma {:induction false} CountWidens(s: seq<int>, n: nat, lo: int, hi: int, hi': int)
    requires n <= |s| && hi <= hi'
    ensures CountIn(s, n, lo, hi) <= CountIn(s, n, lo, hi')
  {
    if n > 0 {
      CountWidens(s, n - 1, lo, hi, hi');
    }
  }

  lemma OneWindowMore(m: nat, w: int, horizon: int)
    requires 0 < w <= horizon
    ensures m * (horizon / w + 1) == m + m * ((horizon - w) / w + 1)
  {
    var q := (horizon - w) / w;
    assert (q + 1) * w == q * w + w;
    QuotientIs(horizon, w, q + 1);
    assert m * (q + 1 + 1) == m * (q + 1) + m;
  }

  lemma {:induction false} CountByWindows(s: seq<int>, maxRuns: int, w: int, m: nat, lo: int, horizon: nat)
    requires Sorted(s, |s|) && Windowed(s, |s|, maxRuns, w) && w > 0 && m == Max(0, maxRuns)
    ensures CountIn(s, |s|, lo, lo + horizon) <= m * (horizon / w + 1)
    decreases horizon
  {
    CountInWindow(s, maxRuns, w, lo);
    if horizon < w {
      CountWidens(s, |s|, lo, lo + horizon, lo + w);
      QuotientIs(horizon, w, 0);
    } else {
      CountByWindows(s, maxRuns, w, m, lo + w, horizon - w);
      CountSplits(s, |s|, lo, lo + w, lo + horizon);
      OneWindowMore(m, w, horizon);
    }
  }

  // ---------------------------------------------------------------- whole runs

  /** What can happen to a guard between two resets. */
  datatype Event =
    | TryAdmit(at: int)
    | Noted(failed: bool)
    | NotedManual(failed: bool)
    | Requested
    | Cleared(id: nat)

  function Apply(c: Limits, g: State, e: Event): State {
    match e
    case TryAdmit(t) => Admit(c, g, t).0
    case Noted(f) => Note(c, g, f)
    case NotedManual(f) => NoteManual(g, f)
    case Requested => Request(g).0
    case Cleared(id) => ClearSlot(g, id)
  }

  function Run(c: Limits, g: State, events: seq<Event>): State
    decreases |events|
  {
    if events == [] then g else Run(c, Apply(c, g, events[0]), events[1..])
  }

  /** The times at which the run's admission calls answered yes. */
  function Admissions(c: Limits, g: State, events: seq<Event>): seq<int>
    decreases |events|
  {
    if events == [] then []
    else
      var e := events[0];
      (if e.TryAdmit? && Admit(c, g, e.at).1 then [e.at] else [])
        + Admissions(c, Apply(c, g, e), events[1..])
  }

  lemma ApplyKeepsInv(c: Limits, g: State, e: Event)
    requires Inv(c, g)
    ensures Inv(c, Apply(c, g, e))
    ensures Apply(c, g, e).history == g.history + if e.TryAdmit? && Admit(c, g, e.at).1 then [e.at] else []
  {
    if e.TryAdmit? {
      AdmitKeepsInv(c, g, e.at);
    }
  }

  lemma {:induction false} RunKeepsInv(c: Limits, g: State, events: seq<Event>)
    requires Inv(c, g)
    ensures Inv(c, Run(c, g, events))
    decreases |events|
  {
    if events != [] {
      ApplyKeepsInv(c, g, events[0]);
      RunKeepsInv(c, Apply(c, g, events[0]), events[1..]);
    }
  }

  lemma {:induction false} RunRecordsAdmissions(c: Limits, g: State, events: seq<Event>)
    ensures Run(c, g, events).history == g.history + Admissions(c, g, events)
    decreases |events|
  {
    if events != [] {
      var e := events[0];
      var first := if e.TryAdmit? && Admit(c, g, e.at).1 then [e.at] else [];
      var g', rest := Apply(c, g, e), Admissions(c, Apply(c, g, e), events[1..]);
      RunRecordsAdmissions(c, g', events[1..]);
      assert g'.history == g.history + first;
      assert (g.history + first) + rest == g.history + (first + rest);
    }
  }

  /** The runaway bound: after a reset, and for as long as the next one does not come, any horizon starts a
      bounded number of automatic whole-repo runs, whatever else is mixed in and however the clock is set. */
  lemma RunawayBound(c: Limits, g: State, events: seq<Event>, lo: int, horizon: nat)
    ensures var s := Admissions(c, Reset(g), events);
      && Spaced(s, |s|, c.minInterval)
      && CountIn(s, |s|, lo, lo + c.window) <= Max(0, c.maxRuns)
      && (c.minInterval > 0 ==> CountIn(s, |s|, lo, lo + horizon) <= horizon / c.minInterval + 1)
      && (c.window > 0 ==> CountIn(s, |s|, lo, lo + horizon) <= Max(0, c.maxRuns) * (horizon / c.window + 1))
  {
    var s := Admissions(c, Reset(g), events);
    assert Sorted(s, |s|) && Spaced(s, |s|, c.minInterval) && Windowed(s, |s|, c.maxRuns, c.window) by {
      RunKeepsInv(c, Reset(g), events);
      RunRecordsAdmissions(c, Reset(g), events);
      assert [] + s == s;
    }
    HistoryIsBounded(c, s, lo, horizon);
  }

  lemma HistoryIsBounded(c: Limits, s: seq<int>, lo: int, horizon: nat)
    requires Sorted(s, |s|) && Spaced(s, |s|, c.minInterval) && Windowed(s, |s|, c.maxRuns, c.window)
    ensures CountIn(s, |s|, lo, lo + c.window) <= Max(0, c.maxRuns)
    ensures c.minInterval > 0 ==> CountIn(s, |s|, lo, lo + horizon) <= horizon / c.minInterval + 1
    ensures c.window > 0 ==> CountIn(s, |s|, lo, lo + horizon) <= Max(0, c.maxRuns) * (horizon / c.window + 1)
  {
    CountInWindow(s, c.maxRuns, c.window, lo);
    if c.minInterval > 0 {
      CountByInterval(s, c.minInterval, lo, horizon);
    }
    if c.window > 0 {
      CountByWindows(s, c.maxRuns, c.window, Max(0, c.maxRuns), lo, horizon);
    }
  }

  /** The two guards differ at most in the slot, its numbering and the record of manual runs. */
  predicate SameBreaker(g: State, h: State) {
    && g.failures == h.failures && g.tripped == h.tripped
    && g.history == h.history && g.head == h.head && g.lastStart == h.lastStart
  }

  lemma SameBreakerSameStep(c: Limits, g: State, h: State, e: Event)
    requires SameBreaker(g, h)
    ensures SameBreaker(Apply(c, g, e), Apply(c, h, e))
    ensures e.TryAdmit? ==> Admit(c, g, e.at).1 == Admit(c, h, e.at).1
  {
  }

  lemma {:induction false} SameBreakerSameRun(c: Limits, g: State, h: State, events: seq<Event>)
    requires SameBreaker(g, h)
    ensures Admissions(c, g, events) == Admissions(c, h, events)
    ensures SameBreaker(Run(c, g, events), Run(c, h, events))
    decreases |events|
  {
    if events != [] {
      SameBreakerSameStep(c, g, h, events[0]);
      SameBreakerSameRun(c, Apply(c, g, events[0]), Apply(c, h, events[0]), events[1..]);
    }
  }

  /** Whatever tripped it, a guard that was reset admits and trips as a new one does; it keeps its slot and numbering. */
  lemma ResetStartsOver(c: Limits, g: State, events: seq<Event>)
    ensures Admissions(c, Reset(g), events) == Admissions(c, INITIAL, events)
    ensures Run(c, Reset(g), events).tripped == Run(c, INITIAL, events).tripped
    ensures Run(c, Reset(g), events).failures == Run(c, INITIAL, events).failures
    ensures Reset(g).queued == g.queued && Reset(g).runSeq == g.runSeq && Reset(g).manualFailed == g.manualFailed
  {
    SameBreakerSameRun(c, Reset(g), INITIAL, events);
  }

  lemma {:induction false} NothingAdmittedYet(c: Limits, g: State, events: seq<Event>)
    requires forall i :: 0 <= i < |events| ==> !events[i].TryAdmit?
    ensures var r := Run(c, g, events); r.history == g.history && r.head == g.head && r.lastStart == g.lastStart
    decreases |events|
  {
    if events != [] {
      NothingAdmittedYet(c, Apply(c, g, events[0]), events[1..]);
    }
  }

  /** The first run that asks after a reset is admitted, unless the allowance is zero or failures have tripped meanwhile. */
  lemma FirstIsAdmitted(c: Limits, g: State, events: seq<Event>, t: int)
    requires forall i :: 0 <= i < |events| ==> !events[i].TryAdmit?
    ensures Admissions(c, Reset(g), events + [TryAdmit(t)])
         == if c.maxRuns > 0 && Run(c, Reset(g), events).tripped.None? then [t] else []
  {
    NothingAdmittedYet(c, Reset(g), events);
    AdmissionsOneMore(c, Reset(g), events, TryAdmit(t));
    NoAdmissions(c, Reset(g), events);
  }

  lemma {:induction false} NoAdmissions(c: Limits, g: State, events: seq<Event>)
    requires forall i :: 0 <= i < |events| ==> !events[i].TryAdmit?
    ensures Admissions(c, g, events) == []
    decreases |events|
  {
    if events != [] {
      NoAdmissions(c, Apply(c, g, events[0]), events[1..]);
    }
  }

  lemma {:induction false} AdmissionsOneMore(c: Limits, g: State, events: seq<Event>, e: Event)
    ensures var end := Run(c, g, events);
      Admissions(c, g, events + [e])
        == Admissions(c, g, events) + if e.TryAdmit? && Admit(c, end, e.at).1 then [e.at] else []
    decreases |events|
  {
    if events != [] {
      AdmissionsOneMore(c, Apply(c, g, events[0]), events[1..], e);
      assert (events + [e])[1..] == events[1..] + [e];
    }
  }

  /** A trip latches: nothing but a reset lets another automatic run start. */
  lemma {:induction false} NoAdmissionAfterTrip(c: Limits, g: State, events: seq<Event>)
    requires g.tripped.Some?
    ensures Admissions(c, g, events) == []
    ensures Run(c, g, events).tripped == g.tripped
    decreases |events|
  {
    if events != [] {
      NoAdmissionAfterTrip(c, Apply(c, g, events[0]), events[1..]);
    }
  }

  lemma {:induction false} StaleNotCounted(s: seq<int>, n: nat, t: int, window: int)
    requires n <= |s| && AllStale(s, n, t, window)
    ensures CountIn(s, n, t - window, t) == 0
  {
    if n > 0 {
      StaleNotCounted(s, n - 1, t, window);
    }
  }

  lemma {:induction false} FreshAllCounted(s: seq<int>, n: nat, head: nat, t: int, window: int)
    requires head <= n <= |s| && Sorted(s, |s|) && AllStale(s, head, t, window)
    requires |s| > 0 ==> s[|s| - 1] <= t
    requires head < |s| ==> t - s[head] <= window
    ensures CountIn(s, n, t - window, t) == n - head
    decreases n
  {
    if n == head {
      StaleNotCounted(s, n, t, window);
    } else {
      SortedPair(s, |s|, head, n - 1);
      SortedPair(s, |s|, n - 1, |s| - 1);
      FreshAllCounted(s, n - 1, head, t, window);
    }
  }

  lemma FreshIsWindow(c: Limits, g: State, t: int)
    requires Sorted(g.history, |g.history|) && UpToDate(c, g, t)
    ensures |g.history| - Fresh(g.history, g.head, t, c.window) == CountIn(g.history, |g.history|, t - c.window, t)
  {
    FreshSkipsStale(g.history, g.head, t, c.window);
    FreshAllCounted(g.history, |g.history|, Fresh(g.history, g.head, t, c.window), t, c.window);
  }

  /** Whatever the clock did, the pruned queue leads to the decision that the whole history calls for. */
  lemma RecentRefinesHistory(c: Limits, g: State, t: int)
    requires Inv(c, g)
    ensures Admit(c, g, t).1 ==
      (g.tripped.None? && !TooSoon(c, g, t) && CountIn(g.history, |g.history|, t - c.window, t) < c.maxRuns)
    ensures g.tripped.None? && !TooSoon(c, g, t) ==>
      (Admit(c, g, t).0.tripped.Some? <==> CountIn(g.history, |g.history|, t - c.window, t) >= c.maxRuns)
  {
    if g.tripped.None? && !TooSoon(c, g, t) {
      DueIsPastPruning(c, g, t);
      FreshIsWindow(c, g, t);
    }
  }

  /** The clock has not gone back behind an admission or a pruning. */
  predicate UpToDate(c: Limits, g: State, t: int) {
    var s, n := g.history, |g.history|;
    g.head <= n && AllStale(s, g.head, t, c.window) && (n > 0 ==> s[n - 1] <= t)
  }

  /** With a clock that only moves forward the queue is the window at all times, and decides the rate trip. */
  lemma ForwardClockIsExact(c: Limits, g: State, now: int, t: int)
    requires Inv(c, g) && UpToDate(c, g, now) && now <= t
    ensures UpToDate(c, Admit(c, g, t).0, t)
    ensures var inWindow := CountIn(g.history, |g.history|, t - c.window, t);
      && |g.history| - Fresh(g.history, g.head, t, c.window) == inWindow
      && (g.tripped.None? ==> (Admit(c, g, t).0.tripped.Some? <==> inWindow >= c.maxRuns))
  {
    StaysStale(g.history, g.head, now, t, c.window);
    FreshIsWindow(c, g, t);
    FreshSkipsStale(g.history, g.head, t, c.window);
    Frame(c, g.history, Fresh(g.history, g.head, t, c.window), t, t);
  }

  /** Length of the run of failures that the automatic outcomes among the first `n` events end in. */
  function TrailingFailures(events: seq<Event>, n: nat): nat
    requires n <= |events|
  {
    if n == 0 then 0
    else
      match events[n - 1]
      case Noted(failed) => if failed then TrailingFailures(events, n - 1) + 1 else 0
      case _ => TrailingFailures(events, n - 1)
  }

  lemma {:induction false} RunOneMore(c: Limits, g: State, events: seq<Event>, e: Event)
    ensures Run(c, g, events + [e]) == Apply(c, Run(c, g, events), e)
    decreases |events|
  {
    if events != [] {
      RunOneMore(c, Apply(c, g, events[0]), events[1..], e);
      assert (events + [e])[1..] == events[1..] + [e];
    }
  }

  /** After `n` events: `threshold` failures in a row, and the rate breaker has not tripped. */
  predicate Failing(c: Limits, g: State, events: seq<Event>, n: nat)
    requires n <= |events|
  {
    TrailingFailures(events, n) >= Max(1, c.threshold) && Run(c, g, events[..n]).tripped != Some(Rate)
  }

  /** The failure breaker trips exactly when some prefix of the automatic outcomes since the
      reset ends in `threshold` failures in a row, unless the rate breaker was faster. */
  lemma {:induction false} TripsOnFailureRun(c: Limits, g: State, events: seq<Event>, n: nat)
    requires n <= |events|
    ensures Run(c, Reset(g), events[..n]).failures == TrailingFailures(events, n)
    ensures Run(c, Reset(g), events[..n]).tripped == Some(Failures)
        <==> exists k :: 0 <= k <= n && Failing(c, Reset(g), events, k)
  {
    if n > 0 {
      TripsOnFailureRun(c, g, events, n - 1);
      assert events[..n] == events[..n - 1] + [events[n - 1]];
      RunOneMore(c, Reset(g), events[..n - 1], events[n - 1]);
      var before, after := Run(c, Reset(g), events[..n - 1]), Run(c, Reset(g), events[..n]);
      if Failing(c, Reset(g), events, n) {
        if !events[n - 1].Noted? {
          assert Failing(c, Reset(g), events, n - 1);
        }
        assert after.tripped.Some? && after.tripped.value == Failures;
      } else {
        assert after.tripped == Some(Failures) ==> before.tripped == after.tripped;
      }
    }
  }

  // ---------------------------------------------------------------- the object

  class Guard {
    const limits: Limits
    var failures: nat
    var manualFailed: bool
    var tripped: Option<TripReason>
    var recent: seq<int>
    var lastStart: Option<int>
    var queued: Option<nat>
    var runSeq: nat
    ghost var history: seq<int>

    ghost predicate Valid()
      reads this
    {
      |recent| <= |history| && recent == history[|history| - |recent|..]
    }

    ghost function View(): State
      reads this
      requires Valid()
    {
      State(failures, manualFailed, tripped, history, |history| - |recent|, lastStart, queued, runSeq)
    }

    constructor (c: Limits)
      ensures limits == c && Valid() && View() == INITIAL
    {
      limits := c;
      failures, manualFailed, tripped := 0, false, None;
      recent, lastStart, queued, runSeq, history := [], None, None, 0, [];
    }

    method DoTrip(reason: TripReason)
      requires Valid()
      modifies this
      ensures Valid() && View() == Trip(old(View()), reason)
    {
      if tripped.Some? {
        return;
      }
      tripped := Some(reason);
    }

    method DoNote(failed: bool)
      requires Valid()
      modifies this
      ensures Valid() && View() == Note(limits, old(View()), failed)
    {
      if !failed {
        failures := 0;
        return;
      }
      failures := failures + 1;
      if tripped.Some? {
        return;
      }
      if failures >= limits.threshold {
        DoTrip(Failures);
      }
    }

    method DropStale(now: int)
      requires Valid()
      modifies this`recent
      ensures Valid() && |recent| <= |old(recent)|
      ensures |history| - |recent| == Fresh(history, |history| - |old(recent)|, now, limits.window)
    {
      while |recent| > 0 && now - recent[0] > limits.window
        invariant Valid() && |recent| <= |old(recent)|
        invariant Fresh(history, |history| - |recent|, now, limits.window)
               == Fresh(history, |history| - |old(recent)|, now, limits.window)
      {
        assert recent[1..] == history[|history| - |recent| + 1..];
        recent := recent[1..];
      }
    }

    method AdmitWholeRepoRun(now: int) returns (ok: bool)
      requires Valid()
      modifies this
      ensures Valid() && View() == Admit(limits, old(View()), now).0 && ok == Admit(limits, old(View()), now).1
    {
      if tripped.Some? {
        return false;
      }
      DropStale(now);
      assert View() == old(View()).(head := Fresh(history, old(View()).head, now, limits.window));
      if |recent| >= limits.maxRuns {
        DoTrip(Rate);
        return false;
      }
      if lastStart.Some? && now - lastStart.value < limits.minInterval {
        return false;
      }
      Push(now);
      return true;
    }

    method Push(now: int)
      requires Valid()
      modifies this`recent, this`history, this`lastStart
      ensures Valid() && history == old(history) + [now] && |recent| == |old(recent)| + 1 && lastStart == Some(now)
    {
      recent, history := recent + [now], history + [now];
      lastStart := Some(now);
    }

    method DoClearSlot(id: nat)
      requires Valid()
      modifies this
      ensures Valid() && View() == ClearSlot(old(View()), id)
    {
      if queued == Some(id) {
        queued := None;
      }
    }

    method DoRequest() returns (id: nat)
      requires Valid()
      modifies this
      ensures Valid() && (View(), id) == Request(old(View()))
    {
      if queued.Some? {
        return queued.value;
      }
      runSeq := runSeq + 1;
      queued := Some(runSeq);
      return runSeq;
    }

    method DoNoteManual(failed: bool)
      requires Valid()
      modifies this
      ensures Valid() && View() == NoteManual(old(View()), failed) && manualFailed == failed
    {
      manualFailed := failed;
    }

    method DoReset()
      requires Valid()
      modifies this
      ensures Valid() && View() == Reset(old(View()))
    {
      failures, tripped, recent, lastStart, history := 0, None, [], None, [];
    }
  }
}
