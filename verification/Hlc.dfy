/** Composite keys of CRDT operations (daemon/src/crdt/hlc.ts and `opKey` of
    daemon/src/crdt/gset.ts): their byte layout, hex form and total order. */
module Hlc {
  type Byte = b: int | 0 <= b < 256

  /** A hybrid logical clock value with the 16-byte id of its writer. */
  datatype Stamp = Stamp(wallMs: nat, counter: nat, writer: seq<Byte>)

  /** The ranges outside which the encoder throws. */
  predicate Valid(s: Stamp) {
    s.wallMs < 0x20_0000_0000_0000 && s.counter < 0x1_0000 && |s.writer| == 16
  }

  /** The low `k` bytes of `n`, most significant first. */
  function BigEndian(n: nat, k: nat): (s: seq<Byte>)
    ensures |s| == k
  {
    if k == 0 then [] else BigEndian(n / 256, k - 1) + [n % 256]
  }

  function EncodeComposite(s: Stamp): seq<Byte> {
    BigEndian(s.wallMs / 0x1_0000_0000, 4) + BigEndian(s.wallMs % 0x1_0000_0000, 4)
      + BigEndian(s.counter, 2) + [0, 0] + s.writer
  }

  const HEX := "0123456789abcdef"

  /** Two hex digits for each of the first `n` bytes. */
  function Hex(bytes: seq<Byte>, n: nat): string
    requires n <= |bytes|
  {
    if n == 0 then "" else Hex(bytes, n - 1) + [HEX[bytes[n - 1] / 16], HEX[bytes[n - 1] % 16]]
  }

  function OpKey(s: Stamp): string {
    var bytes := EncodeComposite(s);
    Hex(bytes, |bytes|)
  }

  // ---------------------------------------------------------------- equal keys, equal stamps

  function Pow256(k: nat): nat {
    if k == 0 then 1 else 256 * Pow256(k - 1)
  }

  lemma {:induction false} BigEndianInjective(m: nat, n: nat, k: nat)
    requires m < Pow256(k) && n < Pow256(k) && BigEndian(m, k) == BigEndian(n, k)
    ensures m == n
  {
    if k > 0 {
      var a, b := BigEndian(m, k), BigEndian(n, k);
      assert a[..k - 1] == BigEndian(m / 256, k - 1) && a[k - 1] == m % 256;
      assert b[..k - 1] == BigEndian(n / 256, k - 1) && b[k - 1] == n % 256;
      BigEndianInjective(m / 256, n / 256, k - 1);
    }
  }

  lemma HexDigits(a: nat, b: nat)
    requires a < 16 && b < 16 && HEX[a] == HEX[b]
    ensures a == b
  {
  }

  lemma {:induction false} HexLength(a: seq<Byte>, n: nat)
    requires n <= |a|
    ensures |Hex(a, n)| == 2 * n
  {
    if n > 0 {
      HexLength(a, n - 1);
    }
  }

  lemma HexParts(a: seq<Byte>, n: nat)
    requires 0 < n <= |a|
    ensures var x := Hex(a, n);
      |x| == 2 * n && x[..2 * n - 2] == Hex(a, n - 1)
      && x[2 * n - 2] == HEX[a[n - 1] / 16] && x[2 * n - 1] == HEX[a[n - 1] % 16]
  {
    HexLength(a, n - 1);
  }

  lemma {:induction false} HexInjective(a: seq<Byte>, b: seq<Byte>, n: nat)
    requires n <= |a| == |b| && Hex(a, n) == Hex(b, n)
    ensures forall i :: 0 <= i < n ==> a[i] == b[i]
  {
    if n > 0 {
      HexParts(a, n);
      HexParts(b, n);
      HexDigits(a[n - 1] / 16, b[n - 1] / 16);
      HexDigits(a[n - 1] % 16, b[n - 1] % 16);
      HexInjective(a, b, n - 1);
    }
  }

  lemma CompositeInjective(a: Stamp, b: Stamp)
    requires Valid(a) && Valid(b) && EncodeComposite(a) == EncodeComposite(b)
    ensures a == b
  {
    var x, y := EncodeComposite(a), EncodeComposite(b);
    assert x[..4] == BigEndian(a.wallMs / 0x1_0000_0000, 4) && y[..4] == BigEndian(b.wallMs / 0x1_0000_0000, 4);
    assert x[4..8] == BigEndian(a.wallMs % 0x1_0000_0000, 4) && y[4..8] == BigEndian(b.wallMs % 0x1_0000_0000, 4);
    assert x[8..10] == BigEndian(a.counter, 2) && y[8..10] == BigEndian(b.counter, 2);
    assert x[12..] == a.writer && y[12..] == b.writer;
    assert Pow256(4) == 0x1_0000_0000 && Pow256(2) == 0x1_0000;
    BigEndianInjective(a.wallMs / 0x1_0000_0000, b.wallMs / 0x1_0000_0000, 4);
    BigEndianInjective(a.wallMs % 0x1_0000_0000, b.wallMs % 0x1_0000_0000, 4);
    BigEndianInjective(a.counter, b.counter, 2);
  }

  /** The map key identifies the stamp. */
  lemma OpKeyInjective(a: Stamp, b: Stamp)
    requires Valid(a) && Valid(b)
    ensures OpKey(a) == OpKey(b) <==> a == b
  {
    if OpKey(a) == OpKey(b) {
      var x, y := EncodeComposite(a), EncodeComposite(b);
      assert |x| == |y| == 28;
      HexInjective(x, y, 28);
      CompositeInjective(a, b);
    }
  }

  // ---------------------------------------------------------------- the total order

  predicate WriterLess(a: seq<Byte>, b: seq<Byte>, i: nat)
    requires |a| == |b| == 16
    decreases 16 - i
  {
    i < 16 && (a[i] < b[i] || (a[i] == b[i] && WriterLess(a, b, i + 1)))
  }

  /** `compareComposite` returns -1. */
  predicate Less(a: Stamp, b: Stamp)
    requires Valid(a) && Valid(b)
  {
    || a.wallMs < b.wallMs
    || (a.wallMs == b.wallMs && a.counter < b.counter)
    || (a.wallMs == b.wallMs && a.counter == b.counter && WriterLess(a.writer, b.writer, 0))
  }

  lemma {:induction false} WritersCompare(a: seq<Byte>, b: seq<Byte>, i: nat)
    requires |a| == |b| == 16 && i <= 16
    ensures !(WriterLess(a, b, i) && WriterLess(b, a, i))
    ensures WriterLess(a, b, i) || WriterLess(b, a, i) || a[i..] == b[i..]
    decreases 16 - i
  {
    if i < 16 {
      WritersCompare(a, b, i + 1);
      assert a[i..] == [a[i]] + a[i + 1..] && b[i..] == [b[i]] + b[i + 1..];
    }
  }

  lemma {:induction false} WriterLessTransitive(a: seq<Byte>, b: seq<Byte>, c: seq<Byte>, i: nat)
    requires |a| == |b| == |c| == 16 && WriterLess(a, b, i) && WriterLess(b, c, i)
    ensures WriterLess(a, c, i)
    decreases 16 - i
  {
    if a[i] == b[i] == c[i] {
      WriterLessTransitive(a, b, c, i + 1);
    }
  }

  /** Exactly one of less, equal and greater holds, and the order is transitive. */
  lemma LessIsStrictTotal(a: Stamp, b: Stamp, c: Stamp)
    requires Valid(a) && Valid(b) && Valid(c)
    ensures !(Less(a, b) && Less(b, a)) && !Less(a, a)
    ensures Less(a, b) || Less(b, a) || a == b
    ensures Less(a, b) && Less(b, c) ==> Less(a, c)
  {
    WritersCompare(a.writer, b.writer, 0);
    WritersCompare(a.writer, a.writer, 0);
    if WriterLess(a.writer, b.writer, 0) && WriterLess(b.writer, c.writer, 0) {
      WriterLessTransitive(a.writer, b.writer, c.writer, 0);
    }
    assert a.writer[0..] == a.writer && b.writer[0..] == b.writer;
  }

  // ---------------------------------------------------------------- the order of the bytes

  /** At the first byte that differs the one of `x` is smaller. */
  ghost predicate BytesLess(x: seq<Byte>, y: seq<Byte>) {
    exists i :: 0 <= i < |x| && i < |y| && x[i] < y[i] && x[..i] == y[..i]
  }

  lemma LessInFront(x: seq<Byte>, y: seq<Byte>, u: seq<Byte>, v: seq<Byte>)
    requires BytesLess(x, y) && |x| == |y|
    ensures BytesLess(x + u, y + v)
  {
    var i :| 0 <= i < |x| && x[i] < y[i] && x[..i] == y[..i];
    assert (x + u)[..i] == x[..i] && (y + v)[..i] == y[..i];
  }

  lemma LessBehind(x: seq<Byte>, u: seq<Byte>, v: seq<Byte>)
    requires BytesLess(u, v)
    ensures BytesLess(x + u, x + v)
  {
    var i :| 0 <= i < |u| && i < |v| && u[i] < v[i] && u[..i] == v[..i];
    assert (x + u)[..|x| + i] == x + u[..i] && (x + v)[..|x| + i] == x + v[..i];
  }

  lemma BytesLessIsOneWay(x: seq<Byte>, y: seq<Byte>)
    ensures !(BytesLess(x, y) && BytesLess(y, x)) && !BytesLess(x, x)
  {
    if BytesLess(x, y) {
      var i :| 0 <= i < |x| && i < |y| && x[i] < y[i] && x[..i] == y[..i];
      assert forall j :: 0 <= j < i ==> x[..i][j] == y[..i][j];
      forall j | 0 <= j < |x| && j < |y| && y[j] < x[j]
        ensures y[..j] != x[..j]
      {
        assert i < j ==> x[..j][i] != y[..j][i];
      }
    }
  }

  lemma {:induction false} BigEndianLess(m: nat, n: nat, k: nat)
    requires m < n < Pow256(k)
    ensures BytesLess(BigEndian(m, k), BigEndian(n, k))
  {
    var x, y := BigEndian(m / 256, k - 1), BigEndian(n / 256, k - 1);
    if m / 256 < n / 256 {
      BigEndianLess(m / 256, n / 256, k - 1);
      LessInFront(x, y, [m % 256], [n % 256]);
    } else {
      assert BytesLess([m % 256], [n % 256]) by {
        assert [m % 256][0] < [n % 256][0];
      }
      LessBehind(x, [m % 256], [n % 256]);
    }
  }

  lemma {:induction false} WriterLessIsBytes(a: seq<Byte>, b: seq<Byte>, i: nat)
    requires |a| == |b| == 16 && i <= 16 && WriterLess(a, b, i) && a[..i] == b[..i]
    ensures BytesLess(a, b)
    decreases 16 - i
  {
    if a[i] == b[i] {
      assert a[..i + 1] == a[..i] + [a[i]] && b[..i + 1] == b[..i] + [b[i]];
      WriterLessIsBytes(a, b, i + 1);
    }
  }

  function Wall(s: Stamp): seq<Byte> {
    BigEndian(s.wallMs / 0x1_0000_0000, 4) + BigEndian(s.wallMs % 0x1_0000_0000, 4)
  }

  lemma WallLess(a: Stamp, b: Stamp)
    requires Valid(a) && Valid(b) && a.wallMs < b.wallMs
    ensures BytesLess(Wall(a), Wall(b))
  {
    assert Pow256(4) == 0x1_0000_0000;
    var hi, lo := BigEndian(a.wallMs / 0x1_0000_0000, 4), BigEndian(a.wallMs % 0x1_0000_0000, 4);
    var hi', lo' := BigEndian(b.wallMs / 0x1_0000_0000, 4), BigEndian(b.wallMs % 0x1_0000_0000, 4);
    if a.wallMs / 0x1_0000_0000 < b.wallMs / 0x1_0000_0000 {
      BigEndianLess(a.wallMs / 0x1_0000_0000, b.wallMs / 0x1_0000_0000, 4);
      LessInFront(hi, hi', lo, lo');
    } else {
      BigEndianLess(a.wallMs % 0x1_0000_0000, b.wallMs % 0x1_0000_0000, 4);
      LessBehind(hi, lo, lo');
    }
  }

  lemma LessGivesBytes(a: Stamp, b: Stamp)
    requires Valid(a) && Valid(b) && Less(a, b)
    ensures BytesLess(EncodeComposite(a), EncodeComposite(b))
  {
    var rest, rest' := BigEndian(a.counter, 2) + ([0, 0] + a.writer), BigEndian(b.counter, 2) + ([0, 0] + b.writer);
    assert EncodeComposite(a) == Wall(a) + rest && EncodeComposite(b) == Wall(b) + rest';
    if a.wallMs < b.wallMs {
      WallLess(a, b);
      LessInFront(Wall(a), Wall(b), rest, rest');
    } else {
      if a.counter < b.counter {
        assert Pow256(2) == 0x1_0000;
        BigEndianLess(a.counter, b.counter, 2);
        LessInFront(BigEndian(a.counter, 2), BigEndian(b.counter, 2), [0, 0] + a.writer, [0, 0] + b.writer);
      } else {
        WriterLessIsBytes(a.writer, b.writer, 0);
        LessBehind([0, 0], a.writer, b.writer);
        LessBehind(BigEndian(a.counter, 2), [0, 0] + a.writer, [0, 0] + b.writer);
      }
      LessBehind(Wall(a), rest, rest');
    }
  }

  /** The order of operations is the big-endian order of their 28 bytes: wall time, then counter, then writer. */
  lemma LessIsByteOrder(a: Stamp, b: Stamp)
    requires Valid(a) && Valid(b)
    ensures Less(a, b) <==> BytesLess(EncodeComposite(a), EncodeComposite(b))
  {
    LessIsStrictTotal(a, b, a);
    BytesLessIsOneWay(EncodeComposite(a), EncodeComposite(b));
    if Less(a, b) {
      LessGivesBytes(a, b);
    } else if Less(b, a) {
      LessGivesBytes(b, a);
    }
  }
}
