/** The counting maps of the Go trace client (trace/go/aggregator.go and
    trace/go/coverage.go) under any interleaving of `Add`, `AddMany` and `Drain`;
    each call is one step because it runs under the aggregator's mutex. */
module TraceCounts {
  const TWO_63: int := 0x8000_0000_0000_0000
  const TWO_64: int := 0x1_0000_0000_0000_0000

  /** Go's `int` on a 64-bit platform. */
  type Int64 = x: int | -0x8000_0000_0000_0000 <= x < 0x8000_0000_0000_0000

  /** Two's complement wrap-around. */
  function Wrap(x: int): Int64 {
    var r := x % TWO_64;
    if r < TWO_63 then r else r - TWO_64
  }

  lemma WrapFits(x: int)
    ensures Wrap(x) == x <==> -TWO_63 <= x < TWO_63
    ensures (x - Wrap(x)) % TWO_64 == 0
  {
  }

  lemma WrapTwice(x: int, y: int)
    ensures Wrap(Wrap(x) + y) == Wrap(x + y)
  {
  }

  type Counts<!K> = map<K, Int64>

  /** A missing key counts zero. */
  function Get<K>(m: Counts<K>, k: K): Int64 {
    if k in m then m[k] else 0
  }

  function Bump<K>(m: Counts<K>, k: K, n: Int64): Counts<K> {
    m[k := Wrap(Get(m, k) + n)]
  }

  /** `AddMany` over the first `n` keys: blank ones are skipped. */
  function BumpAll<K>(keep: K -> bool, m: Counts<K>, keys: seq<K>, n: nat): Counts<K>
    requires n <= |keys|
  {
    if n == 0 then m
    else
      var before := BumpAll(keep, m, keys, n - 1);
      if keep(keys[n - 1]) then Bump(before, keys[n - 1], 1) else before
  }

  datatype Call<K> = Add(key: K, n: Int64) | AddMany(keys: seq<K>) | Drain

  /** The map after one call; blank keys and counts below one are dropped. */
  function Apply<K>(keep: K -> bool, m: Counts<K>, call: Call<K>): Counts<K> {
    match call
    case Add(k, n) => if keep(k) && n > 0 then Bump(m, k, n) else m
    case AddMany(keys) => BumpAll(keep, m, keys, |keys|)
    case Drain => map[]
  }

  /** The map after the first `i` calls. */
  function After<K>(keep: K -> bool, calls: seq<Call<K>>, i: nat): Counts<K>
    requires i <= |calls|
  {
    if i == 0 then map[] else Apply(keep, After(keep, calls, i - 1), calls[i - 1])
  }

  function Occurrences<K(==)>(k: K, keys: seq<K>, n: nat): nat
    requires n <= |keys|
  {
    if n == 0 then 0 else Occurrences(k, keys, n - 1) + (if keys[n - 1] == k then 1 else 0)
  }

  /** What one call adds to the count of `k`. */
  function Increment<K(==)>(keep: K -> bool, call: Call<K>, k: K): nat {
    if !keep(k) then 0
    else
      match call
      case Add(k', n) => if k' == k && n > 0 then n else 0
      case AddMany(keys) => Occurrences(k, keys, |keys|)
      case Drain => 0
  }

  function Accepted<K(==)>(keep: K -> bool, calls: seq<Call<K>>, i: nat, k: K): nat
    requires i <= |calls|
  {
    if i == 0 then 0 else Accepted(keep, calls, i - 1, k) + Increment(keep, calls[i - 1], k)
  }

  /** The counts of `k` that the drains among the first `i` calls handed out. */
  function Drained<K(==)>(keep: K -> bool, calls: seq<Call<K>>, i: nat, k: K): int
    requires i <= |calls|
  {
    if i == 0 then 0
    else Drained(keep, calls, i - 1, k) + (if calls[i - 1].Drain? then Get(After(keep, calls, i - 1), k) else 0)
  }

  lemma {:induction false} BumpAllCounts<K>(keep: K -> bool, m: Counts<K>, keys: seq<K>, n: nat, k: K)
    requires n <= |keys|
    ensures Get(BumpAll(keep, m, keys, n), k) == Wrap(Get(m, k) + if keep(k) then Occurrences(k, keys, n) else 0)
  {
    if n == 0 {
      WrapFits(Get(m, k));
    } else {
      BumpAllCounts(keep, m, keys, n - 1, k);
      WrapTwice(Get(m, k) + if keep(k) then Occurrences(k, keys, n - 1) else 0, 1);
    }
  }

  /** A call other than a drain adds its increment, modulo 2^64. */
  lemma ApplyCounts<K>(keep: K -> bool, m: Counts<K>, call: Call<K>, k: K)
    requires !call.Drain?
    ensures Get(Apply(keep, m, call), k) == Wrap(Get(m, k) + Increment(keep, call, k))
  {
    WrapFits(Get(m, k));
    if call.AddMany? {
      BumpAllCounts(keep, m, call.keys, |call.keys|, k);
    }
  }

  lemma Congruent(accepted: int, held: Int64, drained: int, n: nat)
    requires (accepted - held - drained) % TWO_64 == 0
    ensures (accepted + n - Wrap(held + n) - drained) % TWO_64 == 0
  {
  }

  /** Whatever the interleaving, what was accepted is held or was drained:
      modulo 2^64 always, and exactly below 2^63. */
  lemma {:induction false} Conservation<K>(keep: K -> bool, calls: seq<Call<K>>, i: nat, k: K)
    requires i <= |calls|
    ensures var held := Get(After(keep, calls, i), k);
      && (Accepted(keep, calls, i, k) - held - Drained(keep, calls, i, k)) % TWO_64 == 0
      && (Accepted(keep, calls, i, k) < TWO_63 ==>
          held >= 0 && Drained(keep, calls, i, k) >= 0 && held + Drained(keep, calls, i, k) == Accepted(keep, calls, i, k))
  {
    if i > 0 {
      Conservation(keep, calls, i - 1, k);
      var m, call := After(keep, calls, i - 1), calls[i - 1];
      if !call.Drain? {
        ApplyCounts(keep, m, call, k);
        var n := Increment(keep, call, k);
        Congruent(Accepted(keep, calls, i - 1, k), Get(m, k), Drained(keep, calls, i - 1, k), n);
        WrapFits(Get(m, k) + n);
      }
    }
  }

  /** From `before` to `m`, every count grew by `delta`, modulo 2^64. */
  ghost predicate Grew<K(!new)>(before: Counts<K>, m: Counts<K>, delta: K -> int) {
    forall k :: Get(m, k) == Wrap(Get(before, k) + delta(k))
  }

  lemma GrewByZero<K(!new)>(m: Counts<K>, delta: K -> int)
    requires forall k :: delta(k) == 0
    ensures Grew(m, m, delta)
  {
    forall k
      ensures Wrap(Get(m, k) + delta(k)) == Get(m, k)
    {
      WrapFits(Get(m, k));
    }
  }

  lemma GrewTwice<K(!new)>(a: Counts<K>, b: Counts<K>, c: Counts<K>, d1: K -> int, d2: K -> int, delta: K -> int)
    requires Grew(a, b, d1) && Grew(b, c, d2) && forall k :: delta(k) == d1(k) + d2(k)
    ensures Grew(a, c, delta)
  {
    forall k
      ensures Get(c, k) == Wrap(Get(a, k) + delta(k))
    {
      WrapTwice(Get(a, k) + d1(k), d2(k));
    }
  }

  lemma ApplyGrows<K(!new)>(keep: K -> bool, m: Counts<K>, call: Call<K>, delta: K -> int)
    requires !call.Drain? && forall k :: delta(k) == Increment(keep, call, k)
    ensures Grew(m, Apply(keep, m, call), delta)
  {
    forall k
      ensures Get(Apply(keep, m, call), k) == Wrap(Get(m, k) + delta(k))
    {
      ApplyCounts(keep, m, call, k);
    }
  }
}
