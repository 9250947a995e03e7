/** The Protocol Buffers wire format as the Go trace package reads it
    (trace/go/pprof.go, `protoReader`), and its encoder (Protocol Buffers
    Encoding guide, sections "Base 128 Varints" and "Message Structure"). */
module ProtoWire {
  import opened Common

  type Byte = b: int | 0 <= b < 256

  const TWO_64: int := 0x1_0000_0000_0000_0000
  const TWO_63: int := 0x8000_0000_0000_0000
  const TWO_61: int := 0x2000_0000_0000_0000

  /** A byte slice: its length is a Go `int`. */
  type Buffer = s: seq<Byte> | |s| < 0x8000_0000_0000_0000

  /** `Panicked` is Go's slice-bounds panic, every other value an error return. */
  datatype Error = BadVarint | BytesOverrun | Fixed64Overrun | Fixed32Overrun | UnknownWire | Panicked

  datatype Read<+T> = Got(value: T, rest: seq<Byte>) | Fail(error: Error)

  /** One field of a message, its payload still undecoded. */
  datatype Field =
    | Varint(number: nat, v: nat)
    | Bytes(number: nat, bs: Buffer)
    | Fixed64(number: nat, bs: Buffer)
    | Fixed32(number: nat, bs: Buffer)

  // ---------------------------------------------------------------- reading

  /** `binary.Uvarint` on `s`, `i` bytes of the number having been read before. */
  function UvarintFrom(s: seq<Byte>, i: nat): (r: Read<nat>)
    ensures r.Got? ==> |r.rest| < |s|
  {
    if s == [] || i >= 10 then Fail(BadVarint)
    else if s[0] < 128 then
      if i == 9 && s[0] > 1 then Fail(BadVarint) else Got(s[0], s[1..])
    else
      match UvarintFrom(s[1..], i + 1)
      case Fail(e) => Fail(e)
      case Got(v, rest) => Got(s[0] - 128 + 128 * v, rest)
  }

  function ReadVarint(s: seq<Byte>): (r: Read<nat>)
    ensures r.Got? ==> |r.rest| < |s|
  {
    UvarintFrom(s, 0)
  }

  /** A 64-bit sum as Go computes it. */
  function WrapInt(x: int): int {
    (x + TWO_63) % TWO_64 - TWO_63
  }

  /** The length check of `bytesField` at position `pos` of a buffer of `len`
      bytes: `int(n)` and the sum wrap, and a wrapped sum slices backwards. */
  function CheckLength(pos: nat, len: nat, n: nat): Option<Error> {
    var end := WrapInt(pos + WrapInt(n));
    if end > len then Some(BytesOverrun) else if end < pos then Some(Panicked) else None
  }

  function ReadBytes(s: seq<Byte>, len: nat): (r: Read<seq<Byte>>)
    requires |s| <= len < TWO_63
    ensures r.Got? ==> |r.rest| < |s|
  {
    match ReadVarint(s)
    case Fail(e) => Fail(e)
    case Got(n, rest) =>
      if n <= |rest| then Got(rest[..n], rest[n..])
      else Fail(if n + (len - |rest|) < TWO_63 then BytesOverrun else Panicked)
  }

  function ReadTag(s: seq<Byte>): (r: Read<(nat, nat)>)
    ensures r.Got? ==> |r.rest| < |s|
  {
    match ReadVarint(s)
    case Fail(e) => Fail(e)
    case Got(v, rest) => Got((v / 8, v % 8), rest)
  }

  function ReadPayload(number: nat, wire: nat, s: seq<Byte>, len: nat): (r: Read<Field>)
    requires |s| <= len < TWO_63
    ensures r.Got? ==> |r.rest| <= |s|
  {
    if wire == 0 then
      match ReadVarint(s)
      case Fail(e) => Fail(e)
      case Got(v, rest) => Got(Varint(number, v), rest)
    else if wire == 2 then
      match ReadBytes(s, len)
      case Fail(e) => Fail(e)
      case Got(bs, rest) => Got(Bytes(number, bs), rest)
    else if wire == 1 then
      if |s| < 8 then Fail(Fixed64Overrun) else Got(Fixed64(number, s[..8]), s[8..])
    else if wire == 5 then
      if |s| < 4 then Fail(Fixed32Overrun) else Got(Fixed32(number, s[..4]), s[4..])
    else Fail(UnknownWire)
  }

  function ReadField(s: seq<Byte>, len: nat): (r: Read<Field>)
    requires |s| <= len < TWO_63
    ensures r.Got? ==> |r.rest| < |s|
  {
    match ReadTag(s)
    case Fail(e) => Fail(e)
    case Got(tag, rest) => ReadPayload(tag.0, tag.1, rest, len)
  }

  /** A message-parsing loop: read a field, let `step` use or ignore it, go on. */
  function Fold<A>(s: seq<Byte>, len: nat, acc: A, step: (A, Field) -> Result<A, Error>): Result<A, Error>
    requires |s| <= len < TWO_63
    decreases |s|
  {
    if s == [] then Ok(acc)
    else
      match ReadField(s, len)
      case Fail(e) => Err(e)
      case Got(f, rest) =>
        match step(acc, f)
        case Err(e) => Err(e)
        case Ok(acc') => Fold(rest, len, acc', step)
  }

  // ---------------------------------------------------------------- writing

  function EncodeVarint(v: nat): (s: seq<Byte>)
    ensures |s| > 0
  {
    if v < 128 then [v] else [v % 128 + 128] + EncodeVarint(v / 128)
  }

  function Wire(f: Field): nat {
    match f
    case Varint(_, _) => 0
    case Fixed64(_, _) => 1
    case Bytes(_, _) => 2
    case Fixed32(_, _) => 5
  }

  function EncodePayload(f: Field): seq<Byte> {
    match f
    case Varint(_, v) => EncodeVarint(v)
    case Fixed64(_, bs) => bs
    case Bytes(_, bs) => EncodeVarint(|bs|) + bs
    case Fixed32(_, bs) => bs
  }

  function EncodeField(f: Field): seq<Byte> {
    EncodeVarint(f.number * 8 + Wire(f)) + EncodePayload(f)
  }

  function Encode(fs: seq<Field>): seq<Byte> {
    if fs == [] then [] else EncodeField(fs[0]) + Encode(fs[1..])
  }

  predicate ValidField(f: Field) {
    && f.number < TWO_61
    && (f.Varint? ==> f.v < TWO_64)
    && (f.Fixed64? ==> |f.bs| == 8)
    && (f.Fixed32? ==> |f.bs| == 4)
  }

  predicate Valid(fs: seq<Field>) {
    fs == [] || (ValidField(fs[0]) && Valid(fs[1..]))
  }

  function FoldFields<A>(fs: seq<Field>, acc: A, step: (A, Field) -> Result<A, Error>): Result<A, Error>
    decreases |fs|
  {
    if fs == [] then Ok(acc)
    else
      match step(acc, fs[0])
      case Err(e) => Err(e)
      case Ok(acc') => FoldFields(fs[1..], acc', step)
  }

  // ---------------------------------------------------------------- round trip

  /** The numbers that fit after `i` bytes of a 64-bit varint have been read. */
  function Cap(i: nat): nat
    decreases 9 - i
  {
    if i >= 9 then 2 else 128 * Cap(i + 1)
  }

  lemma CapIs64Bits()
    ensures Cap(0) == TWO_64
  {
    assert Cap(8) == 256;
    assert Cap(6) == 0x40_0000;
    assert Cap(4) == 0x10_0000_0000;
    assert Cap(2) == 0x4_0000_0000_0000;
  }

  lemma {:induction false} VarintRoundTrip(v: nat, i: nat, rest: seq<Byte>)
    requires i <= 9 && v < Cap(i)
    ensures UvarintFrom(EncodeVarint(v) + rest, i) == Got(v, rest)
  {
    var s := EncodeVarint(v) + rest;
    if v < 128 {
      assert s[1..] == rest;
    } else {
      VarintRoundTrip(v / 128, i + 1, rest);
      assert s[1..] == EncodeVarint(v / 128) + rest;
    }
  }

  /** Every number a reader accepts is a 64-bit one. */
  lemma {:induction false} VarintFits(s: seq<Byte>, i: nat)
    requires i <= 9 && UvarintFrom(s, i).Got?
    ensures UvarintFrom(s, i).value < Cap(i)
  {
    if s[0] >= 128 {
      VarintFits(s[1..], i + 1);
    } else if i < 9 {
      CapAtLeast(i);
    }
  }

  lemma {:induction false} CapAtLeast(i: nat)
    requires i < 9
    ensures Cap(i) >= 256
    decreases 9 - i
  {
    if i < 8 {
      CapAtLeast(i + 1);
    }
  }

  /** What the wrapping length check decides, in plain arithmetic. */
  lemma CheckLengthMeans(pos: nat, len: nat, n: nat)
    requires pos <= len < TWO_63 && n < TWO_64
    ensures CheckLength(pos, len, n)
         == if n <= len - pos then None else if n + pos < TWO_63 then Some(BytesOverrun) else Some(Panicked)
  {
  }

  lemma ReadVarintRoundTrip(v: nat, rest: seq<Byte>)
    requires v < TWO_64
    ensures ReadVarint(EncodeVarint(v) + rest) == Got(v, rest)
  {
    CapIs64Bits();
    VarintRoundTrip(v, 0, rest);
  }

  lemma PayloadRoundTrip(f: Field, rest: seq<Byte>, len: nat)
    requires ValidField(f) && |EncodePayload(f) + rest| <= len < TWO_63
    ensures ReadPayload(f.number, Wire(f), EncodePayload(f) + rest, len) == Got(f, rest)
  {
    var s := EncodePayload(f) + rest;
    match f {
      case Varint(_, v) => ReadVarintRoundTrip(v, rest);
      case Bytes(_, bs) =>
        assert s == EncodeVarint(|bs|) + (bs + rest);
        ReadVarintRoundTrip(|bs|, bs + rest);
        assert (bs + rest)[..|bs|] == bs && (bs + rest)[|bs|..] == rest;
      case Fixed64(_, bs) =>
        assert s[..8] == bs && s[8..] == rest;
      case Fixed32(_, bs) =>
        assert s[..4] == bs && s[4..] == rest;
    }
  }

  lemma TagRoundTrip(number: nat, wire: nat, rest: seq<Byte>)
    requires number < TWO_61 && wire < 8
    ensures ReadTag(EncodeVarint(number * 8 + wire) + rest) == Got((number, wire), rest)
  {
    ReadVarintRoundTrip(number * 8 + wire, rest);
  }

  lemma FieldRoundTrip(f: Field, rest: seq<Byte>, len: nat)
    requires ValidField(f) && |EncodeField(f) + rest| <= len < TWO_63
    ensures ReadField(EncodeField(f) + rest, len) == Got(f, rest)
  {
    var tag, body := EncodeVarint(f.number * 8 + Wire(f)), EncodePayload(f) + rest;
    assert EncodeField(f) + rest == tag + body;
    TagRoundTrip(f.number, Wire(f), body);
    PayloadRoundTrip(f, rest, len);
  }

  /** Decoding undoes encoding, whatever a parser does with the fields. */
  lemma {:induction false} MessageRoundTrip<A>(fs: seq<Field>, len: nat, acc: A, step: (A, Field) -> Result<A, Error>)
    requires Valid(fs) && |Encode(fs)| <= len < TWO_63
    ensures Fold(Encode(fs), len, acc, step) == FoldFields(fs, acc, step)
    decreases |fs|
  {
    if fs != [] {
      FieldRoundTrip(fs[0], Encode(fs[1..]), len);
      if step(acc, fs[0]).Ok? {
        MessageRoundTrip(fs[1..], len, step(acc, fs[0]).value, step);
      }
    }
  }

  // ---------------------------------------------------------------- what the reader accepts

  function Place(i: nat): nat {
    if i == 0 then 1 else 128 * Place(i - 1)
  }

  /** The number of which the first `n` bytes give seven bits each, the least significant first. */
  function ValueOf(s: seq<Byte>, n: nat): nat
    requires n <= |s|
  {
    if n == 0 then 0 else ValueOf(s, n - 1) + s[n - 1] % 128 * Place(n - 1)
  }

  /** The number ends with the first byte below 128; after `i` bytes before it, it has at most 64 bits. */
  ghost predicate EndsAt(s: seq<Byte>, i: nat, n: nat) {
    && 0 < n <= |s| && s[n - 1] < 128 && (forall k :: 0 <= k < n - 1 ==> s[k] >= 128)
    && i + n <= 10 && (i + n == 10 ==> s[n - 1] <= 1)
  }

  lemma {:induction false} ValueFront(s: seq<Byte>, n: nat)
    requires 0 < n <= |s|
    ensures ValueOf(s, n) == s[0] % 128 + 128 * ValueOf(s[1..], n - 1)
  {
    if n > 1 {
      ValueFront(s, n - 1);
      assert s[n - 1] % 128 * Place(n - 1) == 128 * (s[n - 1] % 128 * Place(n - 2));
    } else {
      assert ValueOf(s, 0) == 0 && Place(0) == 1;
    }
  }

  lemma EndsLater(s: seq<Byte>, i: nat, n: nat)
    requires s != [] && s[0] >= 128
    ensures EndsAt(s, i, n + 1) <==> EndsAt(s[1..], i + 1, n)
  {
    var t := s[1..];
    if EndsAt(s, i, n + 1) {
      assert forall k :: 0 <= k < n - 1 ==> t[k] == s[k + 1];
    }
    if EndsAt(t, i + 1, n) {
      assert forall k :: 0 < k < n ==> s[k] == t[k - 1];
    }
  }

  lemma {:induction false} AcceptedMeans(s: seq<Byte>, i: nat) returns (n: nat)
    requires UvarintFrom(s, i).Got?
    ensures EndsAt(s, i, n) && UvarintFrom(s, i) == Got(ValueOf(s, n), s[n..])
  {
    if s[0] < 128 {
      n := 1;
      ValueFront(s, 1);
    } else {
      n := AcceptedMeans(s[1..], i + 1);
      EndsLater(s, i, n);
      ValueFront(s, n + 1);
      n := n + 1;
    }
  }

  lemma {:induction false} RefusedMeans(s: seq<Byte>, i: nat, n: nat)
    requires UvarintFrom(s, i).Fail?
    ensures UvarintFrom(s, i).error == BadVarint && !EndsAt(s, i, n)
  {
    if s != [] && i < 10 && s[0] >= 128 {
      RefusedMeans(s[1..], i + 1, if n == 0 then 0 else n - 1);
      if n > 0 {
        EndsLater(s, i, n - 1);
      }
    }
  }

  lemma EndsOnce(s: seq<Byte>, i: nat, m: nat, n: nat)
    requires EndsAt(s, i, m) && EndsAt(s, i, n)
    ensures m == n
  {
    assert !(m < n) && !(n < m);
  }

  /** A number is read if and only if it ends within ten bytes and 64 bits, and then it is what its bytes say. */
  lemma VarintMeans(s: seq<Byte>, n: nat)
    ensures EndsAt(s, 0, n) ==> ReadVarint(s) == Got(ValueOf(s, n), s[n..])
    ensures (forall m :: !EndsAt(s, 0, m)) <==> ReadVarint(s) == Fail(BadVarint)
  {
    if ReadVarint(s).Got? {
      var m := AcceptedMeans(s, 0);
      if EndsAt(s, 0, n) {
        EndsOnce(s, 0, m, n);
      }
    } else {
      RefusedMeans(s, 0, 0);
      forall m
        ensures !EndsAt(s, 0, m)
      {
        RefusedMeans(s, 0, m);
      }
    }
  }

  lemma {:induction false} TruncatedVarintFails(v: nat, k: nat, i: nat)
    requires k < |EncodeVarint(v)|
    ensures UvarintFrom(EncodeVarint(v)[..k], i) == Fail(BadVarint)
  {
    var s := EncodeVarint(v)[..k];
    if k > 0 {
      TruncatedVarintFails(v / 128, k - 1, i + 1);
      assert s[1..] == EncodeVarint(v / 128)[..k - 1];
    }
  }

  lemma TruncatedPayloadFails(f: Field, k: nat, len: nat)
    requires ValidField(f) && k < |EncodePayload(f)| && k <= len < TWO_63
    ensures ReadPayload(f.number, Wire(f), EncodePayload(f)[..k], len).Fail?
  {
    var s := EncodePayload(f)[..k];
    if f.Varint? {
      TruncatedVarintFails(f.v, k, 0);
    } else if f.Bytes? {
      var size := EncodeVarint(|f.bs|);
      if k < |size| {
        TruncatedVarintFails(|f.bs|, k, 0);
        assert s == size[..k];
      } else {
        assert s == size + f.bs[..k - |size|];
        ReadVarintRoundTrip(|f.bs|, f.bs[..k - |size|]);
      }
    }
  }

  /** A field that is cut off anywhere is an error, and never another field. */
  lemma TruncatedFieldFails(f: Field, k: nat, len: nat)
    requires ValidField(f) && k < |EncodeField(f)| && k <= len < TWO_63
    ensures ReadField(EncodeField(f)[..k], len).Fail?
  {
    var s, tag := EncodeField(f)[..k], EncodeVarint(f.number * 8 + Wire(f));
    if k < |tag| {
      TruncatedVarintFails(f.number * 8 + Wire(f), k, 0);
      assert s == tag[..k];
    } else {
      var body := EncodePayload(f)[..k - |tag|];
      assert s == tag + body;
      TagRoundTrip(f.number, Wire(f), body);
      TruncatedPayloadFails(f, k - |tag|, len);
    }
  }

  /** So is a field of a wire type that the format does not use any more. */
  lemma UnknownWireFails(number: nat, wire: nat, rest: seq<Byte>, len: nat)
    requires number < TWO_61 && wire < 8 && |EncodeVarint(number * 8 + wire) + rest| <= len < TWO_63
    ensures ReadField(EncodeVarint(number * 8 + wire) + rest, len) == Fail(UnknownWire) <==> wire in {3, 4, 6, 7}
  {
    TagRoundTrip(number, wire, rest);
    if ReadVarint(rest).Fail? {
      RefusedMeans(rest, 0, 0);
    }
  }

  // ---------------------------------------------------------------- the reader object

  /** What is left of `buf` after its first `n` bytes. */
  function From(buf: seq<Byte>, n: nat): (r: seq<Byte>)
    requires n <= |buf|
    ensures |r| == |buf| - n
  {
    if n == 0 then buf else From(buf, n - 1)[1..]
  }

  lemma {:induction false} FromIsSlice(buf: seq<Byte>, n: nat)
    requires n <= |buf|
    ensures From(buf, n) == buf[n..]
  {
    if n > 0 {
      FromIsSlice(buf, n - 1);
    }
  }

  lemma {:induction false} VarintLeavesTail(s: seq<Byte>, i: nat)
    requires UvarintFrom(s, i).Got?
    ensures var rest := UvarintFrom(s, i).rest; rest == s[|s| - |rest|..]
  {
    if s[0] >= 128 {
      VarintLeavesTail(s[1..], i + 1);
    }
  }

  class ProtoReader {
    const buf: Buffer
    var pos: nat

    ghost predicate Valid()
      reads this
    {
      pos <= |buf|
    }

    ghost function Rest(): seq<Byte>
      reads this
      requires Valid()
    {
      From(buf, pos)
    }

    constructor (b: Buffer)
      ensures Valid() && buf == b && pos == 0
    {
      buf := b;
      pos := 0;
    }

    /** What is left to read is what `r` leaves, or the read failed with its error. */
    ghost predicate Did<T>(r: Read<T>, out: Result<T, Error>)
      reads this
    {
      match r
      case Got(v, rest) => out == Ok(v) && Valid() && Rest() == rest
      case Fail(e) => out == Err(e)
    }

    method DoVarint() returns (r: Result<nat, Error>)
      requires Valid()
      modifies this`pos
      ensures Valid() && Did(ReadVarint(old(Rest())), r)
    {
      FromIsSlice(buf, pos);
      match ReadVarint(buf[pos..])
      case Fail(e) => return Err(e);
      case Got(v, rest) =>
        VarintLeavesTail(buf[pos..], 0);
        pos := |buf| - |rest|;
        FromIsSlice(buf, pos);
        return Ok(v);
    }

    method DoTag() returns (r: Result<(nat, nat), Error>)
      requires Valid()
      modifies this`pos
      ensures Valid() && Did(ReadTag(old(Rest())), r)
    {
      var v := DoVarint();
      return match v case Err(e) => Err(e) case Ok(n) => Ok((n / 8, n % 8));
    }

    method DoBytes() returns (r: Result<Buffer, Error>)
      requires Valid()
      modifies this`pos
      ensures Valid() && Did(ReadBytes(old(Rest()), |buf|), r)
    {
      var v := DoVarint();
      if v.Err? {
        return Err(v.error);
      }
      var n := v.value;
      assert n < TWO_64 by {
        CapIs64Bits();
        VarintFits(old(Rest()), 0);
      }
      CheckLengthMeans(pos, |buf|, n);
      var bad := CheckLength(pos, |buf|, n);
      if bad.Some? {
        return Err(bad.value);
      }
      FromIsSlice(buf, pos);
      FromIsSlice(buf, pos + n);
      assert buf[pos..][..n] == buf[pos..pos + n] && buf[pos..][n..] == buf[pos + n..];
      r := Ok(buf[pos..pos + n]);
      pos := pos + n;
    }

    method SkipFixed(width: nat, overrun: Error) returns (r: Result<(), Error>)
      requires Valid()
      modifies this`pos
      ensures Valid()
      ensures if old(|buf| - pos) < width then r == Err(overrun) else r.Ok? && Rest() == old(Rest())[width..]
    {
      if pos + width > |buf| {
        return Err(overrun);
      }
      FromIsSlice(buf, pos);
      FromIsSlice(buf, pos + width);
      assert buf[pos..][width..] == buf[pos + width..];
      pos := pos + width;
      return Ok(());
    }

    method DoSkip(number: nat, wire: nat) returns (r: Result<(), Error>)
      requires Valid()
      modifies this`pos
      ensures Valid()
      ensures match ReadPayload(number, wire, old(Rest()), |buf|)
        case Got(_, rest) => r.Ok? && Rest() == rest
        case Fail(e) => r == Err(e)
    {
      if wire == 0 {
        var v := DoVarint();
        return if v.Ok? then Ok(()) else Err(v.error);
      } else if wire == 2 {
        var b := DoBytes();
        return if b.Ok? then Ok(()) else Err(b.error);
      } else if wire == 1 {
        r := SkipFixed(8, Fixed64Overrun);
      } else if wire == 5 {
        r := SkipFixed(4, Fixed32Overrun);
      } else {
        r := Err(UnknownWire);
      }
    }
  }
}
