/** The grow-only set of trace observations and its aggregated view
    (daemon/src/crdt/gset.ts). */
module Gset {
  import opened Common
  import Hlc

  type Stamp = s: Hlc.Stamp | Hlc.Valid(s) witness Hlc.Stamp(0, 0, seq(16, i => 0))

  datatype Op = Op(src: string, dst: string, tsBucket: int, observed: nat, weight: nat, stamp: Stamp)

  function Key(op: Op): string {
    Hlc.OpKey(op.stamp)
  }

  // ---------------------------------------------------------------- the set as a value

  /** A state without its insertion order: key to operation. */
  type Table = map<string, Op>

  function Put(m: Table, key: string, op: Op): Table {
    if key in m then m else m[key := op]
  }

  function Apply(m: Table, op: Op): Table {
    Put(m, Key(op), op)
  }

  /** Entries already present win. */
  function Merge(m: Table, other: Table): Table {
    other + m
  }

  type Keys = Op -> string

  /** Which operations a state is allowed to hold: one per key. */
  ghost predicate Consistent(key: Keys, ops: set<Op>) {
    forall a, b :: a in ops && b in ops && key(a) == key(b) ==> a == b
  }

  /** `m` holds exactly `ops`, each under its own key. */
  ghost predicate Holds(key: Keys, m: Table, ops: set<Op>) {
    && (forall k :: k in m ==> m[k] in ops && key(m[k]) == k)
    && (forall op :: op in ops ==> key(op) in m && m[key(op)] == op)
  }

  lemma HoldsDetermines(key: Keys, m: Table, m': Table, ops: set<Op>)
    requires Holds(key, m, ops) && Holds(key, m', ops)
    ensures m == m'
  {
    forall k | k in m
      ensures k in m' && m'[k] == m[k]
    {
      assert key(m[k]) == k;
    }
    forall k | k in m'
      ensures k in m
    {
      assert key(m'[k]) == k;
    }
  }

  /** How a replica came to be: any order, duplication and merge topology. */
  datatype Replica =
    | Fresh
    | Applied(before: Replica, op: Op)
    | Merged(into: Replica, from: Replica)
    | Cloned(of: Replica)

  function TableOf(r: Replica): Table {
    match r
    case Fresh => map[]
    case Applied(b, op) => Apply(TableOf(b), op)
    case Merged(a, b) => Merge(TableOf(a), TableOf(b))
    case Cloned(o) => TableOf(o)
  }

  /** The operations that reached the replica. */
  function Received(r: Replica): set<Op> {
    match r
    case Fresh => {}
    case Applied(b, op) => Received(b) + {op}
    case Merged(a, b) => Received(a) + Received(b)
    case Cloned(o) => Received(o)
  }

  lemma PutHolds(key: Keys, m: Table, ops: set<Op>, op: Op)
    requires Holds(key, m, ops) && Consistent(key, ops + {op})
    ensures Holds(key, Put(m, key(op), op), ops + {op})
  {
    if key(op) in m {
      assert m[key(op)] in ops + {op} && op in ops + {op};
    }
  }

  lemma MergeHolds(key: Keys, a: Table, b: Table, opsA: set<Op>, opsB: set<Op>)
    requires Holds(key, a, opsA) && Holds(key, b, opsB) && Consistent(key, opsA + opsB)
    ensures Holds(key, Merge(a, b), opsA + opsB)
  {
    forall op | op in opsB
      ensures key(op) in Merge(a, b) && Merge(a, b)[key(op)] == op
    {
      if key(op) in a {
        assert a[key(op)] in opsA + opsB && op in opsA + opsB;
      }
    }
  }

  lemma {:induction false} ReplicaHoldsReceived(r: Replica)
    requires Consistent(Key, Received(r))
    ensures Holds(Key, TableOf(r), Received(r))
  {
    match r {
      case Fresh =>
      case Applied(b, op) =>
        ReplicaHoldsReceived(b);
        PutHolds(Key, TableOf(b), Received(b), op);
      case Merged(a, b) =>
        ReplicaHoldsReceived(a);
        ReplicaHoldsReceived(b);
        MergeHolds(Key, TableOf(a), TableOf(b), Received(a), Received(b));
      case Cloned(o) => ReplicaHoldsReceived(o);
    }
  }

  /** Strong eventual consistency of the set itself. */
  lemma Convergence(r: Replica, r': Replica)
    requires Received(r) == Received(r') && Consistent(Key, Received(r))
    ensures TableOf(r) == TableOf(r')
  {
    ReplicaHoldsReceived(r);
    ReplicaHoldsReceived(r');
    HoldsDetermines(Key, TableOf(r), TableOf(r'), Received(r));
  }

  ghost predicate Included(m: Table, m': Table) {
    forall k :: k in m ==> k in m' && m'[k] == m[k]
  }

  lemma ApplyIncludes(m: Table, op: Op)
    ensures Included(m, Apply(m, op)) && Key(op) in Apply(m, op)
  {
  }

  lemma IncludedTwice(a: Table, b: Table, c: Table)
    requires Included(a, b) && Included(b, c)
    ensures Included(a, c)
  {
  }

  /** A replica that goes on to receive all of `ops` keeps what it has. */
  lemma {:induction false} Feed(r: Replica, ops: set<Op>) returns (r': Replica)
    ensures Received(r') == Received(r) + ops && Included(TableOf(r), TableOf(r'))
    decreases |ops|
  {
    if ops == {} {
      r' := r;
    } else {
      var op :| op in ops;
      r' := Feed(Applied(r, op), ops - {op});
      ApplyIncludes(TableOf(r), op);
      IncludedTwice(TableOf(r), TableOf(Applied(r, op)), TableOf(r'));
      assert Received(r) + {op} + (ops - {op}) == Received(r) + ops;
    }
  }

  /** Receiving one of `ops` first settles what is held under its key. */
  lemma FirstWins(ops: set<Op>, op: Op) returns (r: Replica)
    requires op in ops
    ensures Received(r) == ops && Key(op) in TableOf(r) && TableOf(r)[Key(op)] == op
  {
    r := Feed(Applied(Fresh, op), ops);
    assert TableOf(Applied(Fresh, op)) == map[Key(op) := op];
    assert {} + {op} + ops == ops;
  }

  /** Replicas that received exactly `ops` always agree if and only if no two of them share a key. */
  lemma ConvergesIff(ops: set<Op>)
    ensures (forall r, r' :: Received(r) == ops && Received(r') == ops ==> TableOf(r) == TableOf(r'))
       <==> Consistent(Key, ops)
  {
    if Consistent(Key, ops) {
      forall r, r' | Received(r) == ops && Received(r') == ops
        ensures TableOf(r) == TableOf(r')
      {
        Convergence(r, r');
      }
    } else {
      var a, b :| a in ops && b in ops && Key(a) == Key(b) && a != b;
      var r := FirstWins(ops, a);
      var r' := FirstWins(ops, b);
      assert TableOf(r)[Key(a)] != TableOf(r')[Key(a)];
    }
  }

  /** `Merge` is the join: the least state that includes both. */
  lemma MergeIsJoin(a: Table, b: Table, c: Table)
    requires forall k :: k in a && k in b ==> a[k] == b[k]
    ensures Merge(a, b) == Merge(b, a)
    ensures Included(a, c) && Included(b, c) <==> Included(Merge(a, b), c)
  {
    if Included(Merge(a, b), c) {
      forall k | k in b
        ensures k in c && c[k] == b[k]
      {
        assert k in Merge(a, b) && Merge(a, b)[k] == b[k];
      }
    }
  }

  /** The state grows by the number of keys that were new to it. */
  lemma MergeGrowth(a: Table, b: Table)
    ensures |Merge(a, b)| == |a| + |b.Keys - a.Keys|
  {
    assert Merge(a, b).Keys == a.Keys + (b.Keys - a.Keys);
  }

  // ---------------------------------------------------------------- sorted enumeration

  ghost predicate Increasing(s: seq<Op>) {
    forall i, j :: 0 <= i < j < |s| ==> Hlc.Less(s[i].stamp, s[j].stamp)
  }

  /** `s` lists the operations of `m` in composite order. */
  ghost predicate Enumerates(key: Keys, s: seq<Op>, m: Table) {
    Increasing(s) && forall op :: op in s <==> key(op) in m && m[key(op)] == op
  }

  lemma LastIsGreatest(s: seq<Op>, t: seq<Op>)
    requires Increasing(s) && Increasing(t) && s != [] && t != []
    requires forall op :: op in s <==> op in t
    ensures s[|s| - 1] == t[|t| - 1]
  {
    var x, y := s[|s| - 1], t[|t| - 1];
    assert x in t && y in s;
    var j :| 0 <= j < |t| && t[j] == x;
    var i :| 0 <= i < |s| && s[i] == y;
    Hlc.LessIsStrictTotal(x.stamp, y.stamp, x.stamp);
  }

  lemma WithoutLast(s: seq<Op>)
    requires Increasing(s) && s != []
    ensures Increasing(s[..|s| - 1])
    ensures forall op :: op in s[..|s| - 1] <==> op in s && op != s[|s| - 1]
  {
    var x, s' := s[|s| - 1], s[..|s| - 1];
    Hlc.LessIsStrictTotal(x.stamp, x.stamp, x.stamp);
    assert s == s' + [x] && x !in s';
  }

  /** There is only one increasing list of given operations. */
  lemma {:induction false} IncreasingIsUnique(s: seq<Op>, t: seq<Op>)
    requires Increasing(s) && Increasing(t) && forall op :: op in s <==> op in t
    ensures s == t
  {
    assert s != [] ==> s[0] in t;
    assert t != [] ==> t[0] in s;
    if s != [] {
      LastIsGreatest(s, t);
      var x, s', t' := s[|s| - 1], s[..|s| - 1], t[..|t| - 1];
      WithoutLast(s);
      WithoutLast(t);
      forall op
        ensures op in s' <==> op in t'
      {
        assert op in s' <==> op in s && op != x;
        assert op in t' <==> op in t && op != x;
      }
      IncreasingIsUnique(s', t');
      assert s == s' + [x] && t == t' + [x];
    }
  }

  /** `all.sort(compareComposite)`, as an insertion sort. */
  function Insert(s: seq<Op>, op: Op): seq<Op> {
    if s == [] || Hlc.Less(s[|s| - 1].stamp, op.stamp) then s + [op]
    else Insert(s[..|s| - 1], op) + [s[|s| - 1]]
  }

  function Sort(all: seq<Op>, n: nat): seq<Op>
    requires n <= |all|
  {
    if n == 0 then [] else Insert(Sort(all, n - 1), all[n - 1])
  }

  lemma PushKeepsIncreasing(s: seq<Op>, last: Op)
    requires Increasing(s) && forall x :: x in s ==> Hlc.Less(x.stamp, last.stamp)
    ensures Increasing(s + [last])
  {
  }

  lemma LastIsAbove(s: seq<Op>, op: Op)
    requires Increasing(s) && s != [] && Hlc.Less(s[|s| - 1].stamp, op.stamp)
    ensures forall x :: x in s ==> Hlc.Less(x.stamp, op.stamp)
  {
    forall i | 0 <= i < |s|
      ensures Hlc.Less(s[i].stamp, op.stamp)
    {
      Hlc.LessIsStrictTotal(s[i].stamp, s[|s| - 1].stamp, op.stamp);
    }
  }

  lemma {:induction false} InsertSorts(s: seq<Op>, op: Op)
    requires Increasing(s) && forall x :: x in s ==> x.stamp != op.stamp
    ensures Increasing(Insert(s, op))
    ensures forall x :: x in Insert(s, op) <==> x in s || x == op
  {
    if s == [] {
      PushKeepsIncreasing(s, op);
    } else if Hlc.Less(s[|s| - 1].stamp, op.stamp) {
      LastIsAbove(s, op);
      PushKeepsIncreasing(s, op);
    } else {
      var last, front := s[|s| - 1], s[..|s| - 1];
      assert s == front + [last];
      InsertSorts(front, op);
      Hlc.LessIsStrictTotal(last.stamp, op.stamp, last.stamp);
      assert forall x :: x in front ==> Hlc.Less(x.stamp, last.stamp);
      PushKeepsIncreasing(Insert(front, op), last);
    }
  }

  lemma {:induction false} SortSorts(all: seq<Op>, n: nat)
    requires n <= |all|
    requires forall i, j :: 0 <= i < j < |all| ==> all[i].stamp != all[j].stamp
    ensures Increasing(Sort(all, n))
    ensures forall x :: x in Sort(all, n) <==> x in all[..n]
  {
    if n > 0 {
      SortSorts(all, n - 1);
      assert all[..n] == all[..n - 1] + [all[n - 1]];
      forall x | x in Sort(all, n - 1)
        ensures x.stamp != all[n - 1].stamp
      {
        var k :| 0 <= k < n - 1 && all[..n - 1][k] == x;
        assert all[k] == x;
      }
      InsertSorts(Sort(all, n - 1), all[n - 1]);
    }
  }

  // ---------------------------------------------------------------- the aggregated view

  datatype Row = Row(src: string, dst: string, tsBucket: int, observed: nat, weight: nat, observers: nat)

  /** A whole number as JavaScript prints it. */
  function Decimal(n: int): string {
    if n < 0 then "-" + Digits(-n) else Digits(n)
  }

  /** Source, destination and time bucket. */
  type Coord = (string, string, int)

  function ViewKey(c: Coord): string {
    c.0 + ['\0'] + c.1 + ['\0'] + Decimal(c.2)
  }

  function At(op: Op): Coord {
    (op.src, op.dst, op.tsBucket)
  }

  function RowAt(r: Row): Coord {
    (r.src, r.dst, r.tsBucket)
  }

  /** The position of the row stored under `key(c)` among the first `n`, or `n`. */
  function Find(key: Coord -> string, rows: seq<Row>, c: Coord, n: nat): (i: nat)
    requires n <= |rows|
    ensures i <= n
  {
    if n == 0 then 0
    else
      var i := Find(key, rows, c, n - 1);
      if i < n - 1 || key(RowAt(rows[n - 1])) == key(c) then i else n
  }

  /** Add `op` to row `i`, or start a new row. */
  function CountAt(rows: seq<Row>, op: Op, i: nat): seq<Row> {
    if i < |rows| then
      var r := rows[i];
      rows[i := r.(observed := r.observed + op.observed, weight := r.weight + op.weight, observers := r.observers + 1)]
    else rows + [Row(op.src, op.dst, op.tsBucket, op.observed, op.weight, 1)]
  }

  /** The rows after the first `n` operations, grouped by `key`. */
  function Rows(key: Coord -> string, s: seq<Op>, n: nat): seq<Row>
    requires n <= |s|
  {
    if n == 0 then []
    else
      var rows := Rows(key, s, n - 1);
      CountAt(rows, s[n - 1], Find(key, rows, At(s[n - 1]), |rows|))
  }

  /** `materializeGset` on a state: the rows of its sorted operations. */
  ghost predicate IsView(rows: seq<Row>, m: Table) {
    exists s :: Enumerates(Key, s, m) && rows == Rows(ViewKey, s, |s|)
  }

  /** Replicas that received the same operations show the same view, row by row. */
  lemma ViewsConverge(r: Replica, r': Replica, rows: seq<Row>, rows': seq<Row>)
    requires Received(r) == Received(r') && Consistent(Key, Received(r))
    requires IsView(rows, TableOf(r)) && IsView(rows', TableOf(r'))
    ensures rows == rows'
  {
    Convergence(r, r');
    var s :| Enumerates(Key, s, TableOf(r)) && rows == Rows(ViewKey, s, |s|);
    var s' :| Enumerates(Key, s', TableOf(r')) && rows' == Rows(ViewKey, s', |s'|);
    IncreasingIsUnique(s, s');
  }

  // ---------------------------------------------------------------- view keys are injective

  function DigitsValue(s: string): int {
    if s == "" then 0 else DigitsValue(s[..|s| - 1]) * 10 + (s[|s| - 1] as int - '0' as int)
  }

  lemma {:induction false} DigitsRoundTrip(n: nat)
    ensures DigitsValue(Digits(n)) == n
    ensures forall i :: 0 <= i < |Digits(n)| ==> '0' <= Digits(n)[i] <= '9'
  {
    if n >= 10 {
      DigitsRoundTrip(n / 10);
      assert Digits(n)[..|Digits(n)| - 1] == Digits(n / 10);
    } else {
      assert Digits(n)[..0] == "";
    }
  }

  lemma DigitsInjective(m: nat, n: nat)
    requires Digits(m) == Digits(n)
    ensures m == n
  {
    DigitsRoundTrip(m);
    DigitsRoundTrip(n);
  }

  lemma DigitsAreDigits(n: nat)
    ensures Digits(n)[0] != '-' && forall i :: 0 <= i < |Digits(n)| ==> Digits(n)[i] != '\0'
  {
    DigitsRoundTrip(n);
  }

  /** Both printed with or without a sign. */
  lemma SameSign(m: int, n: int)
    requires Decimal(m) == Decimal(n)
    ensures m < 0 <==> n < 0
  {
    DigitsAreDigits(if m < 0 then -m else m);
    DigitsAreDigits(if n < 0 then -n else n);
    assert Decimal(m)[0] == Decimal(n)[0];
  }

  lemma DecimalInjective(m: int, n: int)
    ensures Decimal(m) == Decimal(n) <==> m == n
    ensures forall i :: 0 <= i < |Decimal(n)| ==> Decimal(n)[i] != '\0'
  {
    DigitsAreDigits(if n < 0 then -n else n);
    if Decimal(m) == Decimal(n) {
      SameSign(m, n);
      if m < 0 {
        assert Decimal(m)[1..] == Digits(-m) && Decimal(n)[1..] == Digits(-n);
        DigitsInjective(-m, -n);
      } else {
        DigitsInjective(m, n);
      }
    }
  }

  /** Splitting at the last NUL is unambiguous. */
  lemma LastNul(a: string, b: string, a': string, b': string)
    requires NulFree(b) && NulFree(b') && a + ['\0'] + b == a' + ['\0'] + b'
    ensures a == a' && b == b'
  {
    var x, y := a + ['\0'] + b, a' + ['\0'] + b';
    assert x[|a|] == '\0' && y[|a'|] == '\0';
    assert forall i :: |a| < i < |x| ==> x[i] == b[i - |a| - 1];
    assert forall i :: |a'| < i < |y| ==> y[i] == b'[i - |a'| - 1];
    assert x[..|a|] == a && y[..|a'|] == a' && x[|a| + 1..] == b && y[|a'| + 1..] == b';
  }

  /** Sources without NUL are enough to tell the coordinates apart. */
  lemma ViewKeyInjective(c: Coord, d: Coord)
    requires NulFree(c.0) && NulFree(d.0)
    ensures ViewKey(c) == ViewKey(d) <==> c == d
  {
    if ViewKey(c) == ViewKey(d) {
      DecimalInjective(c.2, d.2);
      DecimalInjective(d.2, c.2);
      var rest, rest' := c.1 + ['\0'] + Decimal(c.2), d.1 + ['\0'] + Decimal(d.2);
      assert ViewKey(c) == c.0 + ['\0'] + rest && ViewKey(d) == d.0 + ['\0'] + rest';
      FirstNul(c.0, rest, d.0, rest');
      LastNul(c.1, Decimal(c.2), d.1, Decimal(d.2));
    }
  }

  /** With NULs on both sides two different edges can share a row. */
  lemma ViewKeyCollision()
    ensures ViewKey(("a\0b", "c", 0)) == ViewKey(("a", "b\0c", 0))
  {
  }

  /** With a single NUL in the middle there is only one way to split. */
  lemma OnlyNul(a: string, b: string, a': string, b': string)
    requires NulFree(a) && NulFree(b) && a + ['\0'] + b == a' + ['\0'] + b'
    ensures a == a' && b == b'
  {
    var x, y := a + ['\0'] + b, a' + ['\0'] + b';
    assert forall i :: 0 <= i < |a| ==> x[i] == a[i];
    assert forall i :: |a| < i < |x| ==> x[i] == b[i - |a| - 1];
    assert x[|a'|] == y[|a'|] == '\0';
    assert x[..|a|] == a && y[..|a'|] == a' && x[|a| + 1..] == b && y[|a'| + 1..] == b';
  }

  /** A NUL in an id lets the separator move: another coordinate gets the same key. */
  lemma NulGivesAnother(c: Coord) returns (d: Coord)
    requires !NulFree(c.0) || !NulFree(c.1)
    ensures d != c && ViewKey(d) == ViewKey(c)
  {
    if !NulFree(c.0) {
      var i :| 0 <= i < |c.0| && c.0[i] == '\0';
      var left, right := c.0[..i], c.0[i + 1..];
      d := (left, right + ['\0'] + c.1, c.2);
      assert c.0 == left + ['\0'] + right && |left| < |c.0|;
      SeparatorMoves(left, right, c.1);
    } else {
      var i :| 0 <= i < |c.1| && c.1[i] == '\0';
      var left, right := c.1[..i], c.1[i + 1..];
      d := (c.0 + ['\0'] + left, right, c.2);
      assert c.1 == left + ['\0'] + right && |c.0| < |d.0|;
      SeparatorMoves(c.0, left, right);
    }
  }

  lemma SeparatorMoves(x: string, y: string, z: string)
    ensures (x + ['\0'] + y) + ['\0'] + z == x + ['\0'] + (y + ['\0'] + z)
  {
  }

  /** A coordinate has its key to itself if and only if neither of its two ids holds a NUL. */
  lemma ViewKeyIsOwnIff(c: Coord)
    ensures (forall d :: ViewKey(d) == ViewKey(c) ==> d == c) <==> NulFree(c.0) && NulFree(c.1)
  {
    if NulFree(c.0) && NulFree(c.1) {
      forall d | ViewKey(d) == ViewKey(c)
        ensures d == c
      {
        DecimalInjective(c.2, d.2);
        DecimalInjective(d.2, c.2);
        LastNul(c.0 + ['\0'] + c.1, Decimal(c.2), d.0 + ['\0'] + d.1, Decimal(d.2));
        OnlyNul(c.0, c.1, d.0, d.1);
      }
    } else {
      var d := NulGivesAnother(c);
    }
  }

  // ---------------------------------------------------------------- the view conserves sums

  /** The three things the view adds up. */
  datatype Measure = Samples | Weights | Observers

  function OfOp(m: Measure, op: Op): nat {
    match m case Samples => op.observed case Weights => op.weight case Observers => 1
  }

  function OfRow(m: Measure, r: Row): nat {
    match m case Samples => r.observed case Weights => r.weight case Observers => r.observers
  }

  /** What the first `n` operations add up to, over all and at one coordinate. */
  function OpsTotal(m: Measure, s: seq<Op>, n: nat): nat
    requires n <= |s|
  {
    if n == 0 then 0 else OpsTotal(m, s, n - 1) + OfOp(m, s[n - 1])
  }

  function OpsAt(m: Measure, s: seq<Op>, n: nat, c: Coord): nat
    requires n <= |s|
  {
    if n == 0 then 0 else OpsAt(m, s, n - 1, c) + (if At(s[n - 1]) == c then OfOp(m, s[n - 1]) else 0)
  }

  function RowsTotal(m: Measure, rows: seq<Row>, n: nat): nat
    requires n <= |rows|
  {
    if n == 0 then 0 else RowsTotal(m, rows, n - 1) + OfRow(m, rows[n - 1])
  }

  lemma {:induction false} RowsTotalUpdate(m: Measure, rows: seq<Row>, n: nat, i: nat, r: Row)
    requires n <= |rows| && i < |rows|
    ensures RowsTotal(m, rows[i := r], n)
         == RowsTotal(m, rows, n) + if i < n then OfRow(m, r) - OfRow(m, rows[i]) else 0
  {
    if n > 0 {
      RowsTotalUpdate(m, rows, n - 1, i, r);
    }
  }

  lemma {:induction false} RowsTotalAppend(m: Measure, rows: seq<Row>, n: nat, r: Row)
    requires n <= |rows|
    ensures RowsTotal(m, rows + [r], n) == RowsTotal(m, rows, n)
  {
    if n > 0 {
      RowsTotalAppend(m, rows, n - 1, r);
    }
  }

  lemma CountAtTotal(m: Measure, rows: seq<Row>, op: Op, i: nat)
    ensures var rows' := CountAt(rows, op, i);
      RowsTotal(m, rows', |rows'|) == RowsTotal(m, rows, |rows|) + OfOp(m, op)
  {
    if i < |rows| {
      RowsTotalUpdate(m, rows, |rows|, i, CountAt(rows, op, i)[i]);
    } else {
      RowsTotalAppend(m, rows, |rows|, CountAt(rows, op, i)[|rows|]);
    }
  }

  /** The view loses and invents nothing, whatever it groups by. */
  lemma {:induction false} ViewConserves(key: Coord -> string, m: Measure, s: seq<Op>, n: nat)
    requires n <= |s|
    ensures RowsTotal(m, Rows(key, s, n), |Rows(key, s, n)|) == OpsTotal(m, s, n)
  {
    if n > 0 {
      var rows := Rows(key, s, n - 1);
      ViewConserves(key, m, s, n - 1);
      CountAtTotal(m, rows, s[n - 1], Find(key, rows, At(s[n - 1]), |rows|));
    }
  }

  lemma {:induction false} NothingAt(m: Measure, s: seq<Op>, n: nat, c: Coord)
    requires n <= |s| && forall k :: 0 <= k < n ==> At(s[k]) != c
    ensures OpsAt(m, s, n, c) == 0
  {
    if n > 0 {
      NothingAt(m, s, n - 1, c);
    }
  }

  /** `key` tells the coordinates of `cs` apart. */
  ghost predicate Separates(key: Coord -> string, cs: iset<Coord>) {
    forall c, d :: c in cs && d in cs && key(c) == key(d) ==> c == d
  }

  lemma {:induction false} FindIsByCoordinate(key: Coord -> string, cs: iset<Coord>, rows: seq<Row>, c: Coord, n: nat)
    requires n <= |rows| && c in cs && Separates(key, cs) && forall i :: 0 <= i < |rows| ==> RowAt(rows[i]) in cs
    ensures var i := Find(key, rows, c, n);
      && (i < n ==> RowAt(rows[i]) == c)
      && (i == n ==> forall j :: 0 <= j < n ==> RowAt(rows[j]) != c)
  {
    if n > 0 {
      FindIsByCoordinate(key, cs, rows, c, n - 1);
    }
  }

  ghost predicate HasRow(rows: seq<Row>, c: Coord) {
    exists i :: 0 <= i < |rows| && RowAt(rows[i]) == c
  }

  /** What the rows say after the first `n` operations. */
  ghost predicate Grouped(rows: seq<Row>, s: seq<Op>, n: nat)
    requires n <= |s|
  {
    && (forall m, i :: 0 <= i < |rows| ==> OfRow(m, rows[i]) == OpsAt(m, s, n, RowAt(rows[i])))
    && (forall i, j :: 0 <= i < j < |rows| ==> RowAt(rows[i]) != RowAt(rows[j]))
    && (forall k :: 0 <= k < n ==> HasRow(rows, At(s[k])))
  }

  lemma CountAtSums(m: Measure, rows: seq<Row>, s: seq<Op>, n: nat, i: nat, k: nat)
    requires n < |s| && Grouped(rows, s, n) && i <= |rows|
    requires i < |rows| ==> RowAt(rows[i]) == At(s[n])
    requires i == |rows| ==> forall j :: 0 <= j < |rows| ==> RowAt(rows[j]) != At(s[n])
    requires k < |CountAt(rows, s[n], i)|
    ensures var r := CountAt(rows, s[n], i)[k]; OfRow(m, r) == OpsAt(m, s, n + 1, RowAt(r))
  {
    if k < |rows| {
      assert OfRow(m, rows[k]) == OpsAt(m, s, n, RowAt(rows[k]));
      assert k != i ==> RowAt(rows[k]) != At(s[n]);
    } else {
      assert forall l :: 0 <= l < n ==> HasRow(rows, At(s[l]));
      NothingAt(m, s, n, At(s[n]));
    }
  }

  lemma CountAtKeepsGrouped(rows: seq<Row>, s: seq<Op>, n: nat, i: nat)
    requires n < |s| && Grouped(rows, s, n) && i <= |rows|
    requires i < |rows| ==> RowAt(rows[i]) == At(s[n])
    requires i == |rows| ==> forall j :: 0 <= j < |rows| ==> RowAt(rows[j]) != At(s[n])
    ensures Grouped(CountAt(rows, s[n], i), s, n + 1)
  {
    var rows' := CountAt(rows, s[n], i);
    forall m, k | 0 <= k < |rows'|
      ensures OfRow(m, rows'[k]) == OpsAt(m, s, n + 1, RowAt(rows'[k]))
    {
      CountAtSums(m, rows, s, n, i, k);
    }
    assert forall j :: 0 <= j < |rows| ==> RowAt(rows'[j]) == RowAt(rows[j]);
    assert RowAt(rows'[i]) == At(s[n]);
    forall k | 0 <= k < n + 1
      ensures HasRow(rows', At(s[k]))
    {
      if k < n {
        assert HasRow(rows, At(s[k]));
        var j :| 0 <= j < |rows| && RowAt(rows[j]) == At(s[k]);
        assert RowAt(rows'[j]) == At(s[k]);
      }
    }
  }

  lemma {:induction false} KeyGroups(key: Coord -> string, cs: iset<Coord>, s: seq<Op>, n: nat)
    requires n <= |s| && Separates(key, cs) && forall k :: 0 <= k < |s| ==> At(s[k]) in cs
    ensures Grouped(Rows(key, s, n), s, n)
    ensures forall i :: 0 <= i < |Rows(key, s, n)| ==> RowAt(Rows(key, s, n)[i]) in cs
  {
    if n > 0 {
      var rows := Rows(key, s, n - 1);
      KeyGroups(key, cs, s, n - 1);
      FindIsByCoordinate(key, cs, rows, At(s[n - 1]), |rows|);
      CountAtKeepsGrouped(rows, s, n - 1, Find(key, rows, At(s[n - 1]), |rows|));
    }
  }

  /** In the view each coordinate has exactly one row, and the row carries
      exactly what the operations at that coordinate add up to. */
  lemma ViewGroups(s: seq<Op>)
    requires forall k :: 0 <= k < |s| ==> NulFree(s[k].src)
    ensures Grouped(Rows(ViewKey, s, |s|), s, |s|)
  {
    var cs := iset c: Coord | NulFree(c.0);
    forall c, d | c in cs && d in cs && ViewKey(c) == ViewKey(d)
      ensures c == d
    {
      ViewKeyInjective(c, d);
    }
    KeyGroups(ViewKey, cs, s, |s|);
  }

  // ---------------------------------------------------------------- the objects

  /** The first `n` keys of `order` are those of `m`, once each, and each is the key of its operation. */
  ghost predicate Tracks(key: Keys, m: Table, order: seq<string>, n: nat)
    requires n <= |order|
  {
    if n == 0 then m == map[]
    else var k := order[n - 1]; k in m && key(m[k]) == k && Tracks(key, m - {k}, order, n - 1)
  }

  lemma {:induction false} TracksPrefix(key: Keys, m: Table, order: seq<string>, order': seq<string>, n: nat)
    requires n <= |order| <= |order'| && Tracks(key, m, order, n)
    requires forall j :: 0 <= j < n ==> order[j] == order'[j]
    ensures Tracks(key, m, order', n)
  {
    if n > 0 {
      TracksPrefix(key, m - {order[n - 1]}, order, order', n - 1);
    }
  }

  lemma TracksPush(key: Keys, m: Table, order: seq<string>, op: Op)
    requires Tracks(key, m, order, |order|) && key(op) !in m
    ensures Tracks(key, Put(m, key(op), op), order + [key(op)], |order| + 1)
    ensures |Put(m, key(op), op)| == |m| + 1
  {
    assert Put(m, key(op), op) - {key(op)} == m;
    assert Put(m, key(op), op).Keys == m.Keys + {key(op)};
    TracksPrefix(key, m, order, order + [key(op)], |order|);
  }

  lemma {:induction false} TracksMember(key: Keys, m: Table, order: seq<string>, n: nat, j: nat)
    requires j < n <= |order| && Tracks(key, m, order, n)
    ensures order[j] in m && key(m[order[j]]) == order[j]
    ensures forall i :: j < i < n ==> order[i] != order[j]
  {
    if j < n - 1 {
      TracksMember(key, m - {order[n - 1]}, order, n - 1, j);
    }
  }

  lemma {:induction false} TracksAll(key: Keys, m: Table, order: seq<string>, n: nat, k: string) returns (j: nat)
    requires n <= |order| && Tracks(key, m, order, n) && k in m
    ensures j < n && order[j] == k
  {
    if order[n - 1] == k {
      j := n - 1;
    } else {
      j := TracksAll(key, m - {order[n - 1]}, order, n - 1, k);
    }
  }

  /** Sorting the values in any insertion order enumerates the table. */
  lemma ListIsEnumerated(m: Table, order: seq<string>, all: seq<Op>)
    requires Tracks(Key, m, order, |order|) && |all| == |order|
    requires forall j :: 0 <= j < |all| ==> order[j] in m && all[j] == m[order[j]]
    ensures Enumerates(Key, Sort(all, |all|), m)
  {
    forall i, j | 0 <= i < j < |all|
      ensures all[i].stamp != all[j].stamp
    {
      TracksMember(Key, m, order, |order|, i);
      TracksMember(Key, m, order, |order|, j);
    }
    SortSorts(all, |all|);
    assert all[..|all|] == all;
    forall op
      ensures op in all <==> Key(op) in m && m[Key(op)] == op
    {
      if op in all {
        var j :| 0 <= j < |all| && all[j] == op;
        TracksMember(Key, m, order, |order|, j);
      } else if Key(op) in m {
        var j := TracksAll(Key, m, order, |order|, Key(op));
        assert all[j] in all;
      }
    }
  }

  /** `m` extends `a` with the first `n` entries of `b`. */
  ghost predicate Between(a: Table, m: Table, b: Table, keys: seq<string>, n: nat)
    requires n <= |keys|
  {
    && Included(a, m)
    && (forall k :: k in m && k !in a ==> k in b && m[k] == b[k])
    && (forall j :: 0 <= j < n ==> keys[j] in m)
  }

  /** The copying loop after `i` rounds; `order` is the insertion order of `m`. */
  ghost predicate Copied(key: Keys, a: Table, m: Table, order: seq<string>, b: Table, keys: seq<string>, i: nat)
    requires i <= |keys|
  {
    Tracks(key, m, order, |order|) && Between(a, m, b, keys, i)
  }

  lemma BetweenPut(a: Table, m: Table, b: Table, keys: seq<string>, i: nat)
    requires i < |keys| && Between(a, m, b, keys, i) && keys[i] in b
    ensures Between(a, Put(m, keys[i], b[keys[i]]), b, keys, i + 1)
  {
  }

  /** One round of the copying loop. */
  lemma CopyStep(key: Keys, a: Table, m: Table, order: seq<string>, b: Table, keys: seq<string>, i: nat)
    requires i < |keys| && Tracks(key, b, keys, |keys|) && Copied(key, a, m, order, b, keys, i)
    ensures keys[i] in b
    ensures keys[i] in m ==> Copied(key, a, m, order, b, keys, i + 1)
    ensures keys[i] !in m ==> var m' := Put(m, keys[i], b[keys[i]]);
      Copied(key, a, m', order + [keys[i]], b, keys, i + 1) && |m'| == |m| + 1
  {
    TracksMember(key, b, keys, |keys|, i);
    BetweenPut(a, m, b, keys, i);
    if keys[i] !in m {
      TracksPush(key, m, order, b[keys[i]]);
    }
  }

  lemma CopiedPut(key: Keys, m: Table, order: seq<string>, m': Table, order': seq<string>, b: Table, keys: seq<string>, i: nat)
    requires i < |keys| && keys[i] in b && Copied(key, map[], m, order, b, keys, i)
    requires m' == Put(m, keys[i], b[keys[i]]) && Tracks(key, m', order', |order'|)
    ensures Copied(key, map[], m', order', b, keys, i + 1)
  {
    BetweenPut(map[], m, b, keys, i);
  }

  lemma BetweenIsMerge(key: Keys, a: Table, m: Table, b: Table, keys: seq<string>)
    requires Between(a, m, b, keys, |keys|) && Tracks(key, b, keys, |keys|)
    ensures m == Merge(a, b)
  {
    forall k | k in b
      ensures k in m
    {
      var j := TracksAll(key, b, keys, |keys|, k);
    }
    assert m.Keys == Merge(a, b).Keys;
  }

  class GsetState {
    var ops: Table
    var order: seq<string>

    /** `order` is the insertion order of the map's keys. */
    ghost predicate Valid()
      reads this
    {
      Tracks(Key, ops, order, |order|)
    }

    constructor ()
      ensures Valid() && ops == map[]
    {
      ops, order := map[], [];
    }

    method DoApply(op: Op)
      requires Valid()
      modifies this
      ensures Valid() && ops == Apply(old(ops), op)
      ensures |ops| == |old(ops)| + (if Key(op) in old(ops) then 0 else 1)
    {
      if Key(op) !in ops {
        TracksPush(Key, ops, order, op);
        ops, order := ops[Key(op) := op], order + [Key(op)];
      }
    }

    method DoMerge(other: GsetState) returns (added: nat)
      requires Valid() && other.Valid()
      modifies this
      ensures Valid() && ops == Merge(old(ops), old(other.ops))
      ensures added == |ops| - |old(ops)| == |old(other.ops).Keys - old(ops).Keys|
    {
      added := 0;
      var keys, theirs := other.order, other.ops;
      ghost var mine := ops;
      for i := 0 to |keys|
        invariant Copied(Key, mine, ops, order, theirs, keys, i) && added == |ops| - |mine|
      {
        CopyStep(Key, mine, ops, order, theirs, keys, i);
        if keys[i] !in ops {
          ops, order, added := ops[keys[i] := theirs[keys[i]]], order + [keys[i]], added + 1;
        }
      }
      BetweenIsMerge(Key, mine, ops, theirs, keys);
      MergeGrowth(mine, theirs);
    }

    method SortedOps() returns (s: seq<Op>)
      requires Valid()
      ensures Enumerates(Key, s, ops)
    {
      var all: seq<Op> := [];
      for i := 0 to |order|
        invariant |all| == i
        invariant forall j :: 0 <= j < i ==> order[j] in ops && all[j] == ops[order[j]]
      {
        TracksMember(Key, ops, order, |order|, i);
        all := all + [ops[order[i]]];
      }
      s := Sort(all, |all|);
      ListIsEnumerated(ops, order, all);
    }

    method DoClone() returns (out: GsetState)
      requires Valid()
      ensures fresh(out) && out.Valid() && out.ops == ops
    {
      out := new GsetState();
      for i := 0 to |order|
        invariant fresh(out) && Copied(Key, map[], out.ops, out.order, ops, order, i)
      {
        TracksMember(Key, ops, order, |order|, i);
        ghost var before, listed := out.ops, out.order;
        out.DoApply(ops[order[i]]);
        CopiedPut(Key, before, listed, out.ops, out.order, ops, order, i);
      }
      BetweenIsMerge(Key, map[], out.ops, ops, order);
      assert Merge(map[], ops) == ops;
    }
  }

  method MaterializeGset(state: GsetState) returns (rows: seq<Row>)
    requires state.Valid()
    ensures IsView(rows, state.ops)
  {
    var s := state.SortedOps();
    rows := [];
    for i := 0 to |s|
      invariant rows == Rows(ViewKey, s, i)
    {
      rows := CountAt(rows, s[i], Find(ViewKey, rows, At(s[i]), |rows|));
    }
  }

  /** `Math.floor(t / 60) * 60` */
  function Bucketize(t: real): int {
    (t / 60.0).Floor * 60
  }

  /** A timestamp's bucket is the one whole minute that contains it. */
  lemma BucketizeIsMinute(t: real, minute: int)
    ensures Bucketize(t) == 60 * minute <==> 60.0 * (minute as real) <= t < 60.0 * (minute as real) + 60.0
  {
    var f := (t / 60.0).Floor;
    assert f as real <= t / 60.0 < f as real + 1.0;
  }
}
