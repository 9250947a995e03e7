/** The daemon-wide counting semaphore (daemon/src/cli/daemon.ts,
    `createWorkLimiter`). The code's `run` awaits at two points, so it is three
    atomic sections: arriving, resuming after a wake-up, and leaving. Arriving
    and resuming are the same section: the `while` test is made again. */
module WorkLimiter {
  import opened Common

  datatype State<C> = State(limit: nat, active: nat, waiters: seq<C>)

  /** Take a slot, or park at the tail. The result tells whether a slot was taken. */
  function Arrive<C>(l: State<C>, who: C): (State<C>, bool) {
    if l.active >= l.limit then (l.(waiters := l.waiters + [who]), false)
    else (l.(active := l.active + 1), true)
  }

  /** Give the slot back and wake the longest-waiting client, if any. */
  function Leave<C>(l: State<C>): (State<C>, Option<C>)
    requires l.active > 0
  {
    var l' := l.(active := l.active - 1);
    if l.waiters == [] then (l', None) else (l'.(waiters := l.waiters[1..]), Some(l.waiters[0]))
  }

  class Limiter<C> {
    const limit: nat
    var active: nat
    var waiters: seq<C>

    ghost function View(): State<C>
      reads this
    {
      State(limit, active, waiters)
    }

    constructor (maxConcurrent: int)
      ensures limit >= 1 && View() == State(Max(1, maxConcurrent), 0, [])
    {
      limit := Max(1, maxConcurrent);
      active, waiters := 0, [];
    }

    method TryEnter(who: C) returns (entered: bool)
      modifies this
      ensures (View(), entered) == Arrive(old(View()), who)
    {
      if active >= limit {
        waiters := waiters + [who];
        return false;
      }
      active := active + 1;
      return true;
    }

    method Exit() returns (woken: Option<C>)
      requires active > 0
      modifies this
      ensures (View(), woken) == Leave(old(View()))
    {
      active := active - 1;
      if waiters == [] {
        return None;
      }
      woken := Some(waiters[0]);
      waiters := waiters[1..];
    }
  }

  // ---------------------------------------------------------------- first come, first woken

  /** A client makes the loop test, or a holder leaves. */
  datatype Act<C> = Arrives(who: C) | Leaves

  function After<C>(l: State<C>, acts: seq<Act<C>>, n: nat): State<C>
    requires n <= |acts|
  {
    if n == 0 then l
    else
      var before := After(l, acts, n - 1);
      match acts[n - 1]
      case Arrives(who) => Arrive(before, who).0
      case Leaves => if before.active > 0 then Leave(before).0 else before
  }

  /** Those that found no free slot, in the order in which they came. */
  function Parked<C>(l: State<C>, acts: seq<Act<C>>, n: nat): seq<C>
    requires n <= |acts|
  {
    if n == 0 then []
    else
      var before := After(l, acts, n - 1);
      Parked(l, acts, n - 1)
        + if acts[n - 1].Arrives? && before.active >= before.limit then [acts[n - 1].who] else []
  }

  /** Those that were woken, in that order. */
  function Woken<C>(l: State<C>, acts: seq<Act<C>>, n: nat): seq<C>
    requires n <= |acts|
  {
    if n == 0 then []
    else
      var before := After(l, acts, n - 1);
      var woken := if acts[n - 1].Leaves? && before.active > 0 then Leave(before).1 else None;
      Woken(l, acts, n - 1) + if woken.Some? then [woken.value] else []
  }

  /** Whoever parks is woken once, in the order of parking: nobody is skipped, lost or woken twice. */
  lemma {:induction false} WokenInOrder<C>(l: State<C>, acts: seq<Act<C>>, n: nat)
    requires n <= |acts| && l.waiters == []
    ensures Parked(l, acts, n) == Woken(l, acts, n) + After(l, acts, n).waiters
  {
    if n > 0 {
      WokenInOrder(l, acts, n - 1);
      var before := After(l, acts, n - 1);
      if acts[n - 1].Leaves? && before.active > 0 && before.waiters != [] {
        assert before.waiters == [before.waiters[0]] + before.waiters[1..];
      }
    }
  }
}
