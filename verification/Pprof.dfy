/** The CPU-profile reader of the Go trace package (trace/go/pprof.go,
    `parseProfileStacks` and the message parsers below it). */
module Pprof {
  import opened Common
  import opened ProtoWire

  // ---------------------------------------------------------------- what each loop does with a field

  function PackedFrom(s: seq<Byte>, acc: seq<nat>): Result<seq<nat>, Error>
    decreases |s|
  {
    if s == [] then Ok(acc)
    else
      match ReadVarint(s)
      case Fail(e) => Err(e)
      case Got(v, rest) => PackedFrom(rest, acc + [v])
  }

  function SampleStep(ids: seq<nat>, f: Field): Result<seq<nat>, Error> {
    if f.number == 1 && f.Bytes? then PackedFrom(f.bs, ids)
    else if f.number == 1 && f.Varint? then Ok(ids + [f.v])
    else Ok(ids)
  }

  function LineStep(fid: nat, f: Field): Result<nat, Error> {
    if f.number == 1 && f.Varint? then Ok(f.v) else Ok(fid)
  }

  datatype Location = Location(id: nat, fids: seq<nat>)

  function LocationStep(l: Location, f: Field): Result<Location, Error> {
    if f.number == 1 && f.Varint? then Ok(l.(id := f.v))
    else if f.number == 4 && f.Bytes? then
      match Fold(f.bs, |f.bs|, 0, LineStep)
      case Err(e) => Err(e)
      case Ok(fid) => Ok(if fid != 0 then l.(fids := l.fids + [fid]) else l)
    else Ok(l)
  }

  datatype Func = Func(id: nat, name: int)

  /** `int64(v)` */
  function ToInt64(v: nat): int {
    if v < TWO_63 then v else v - TWO_64
  }

  function FuncStep(fn: Func, f: Field): Result<Func, Error> {
    if f.number == 1 && f.Varint? then Ok(fn.(id := f.v))
    else if f.number == 2 && f.Varint? then Ok(fn.(name := ToInt64(f.v)))
    else Ok(fn)
  }

  /** What the pass over a profile collects. */
  datatype Tables = Tables(
    strs: seq<Buffer>,
    samples: seq<seq<nat>>,
    locs: map<nat, seq<nat>>,
    funcs: map<nat, int>)

  const EMPTY := Tables([], [], map[], map[])

  function ProfileStep(t: Tables, f: Field): Result<Tables, Error> {
    if !f.Bytes? then Ok(t)
    else if f.number == 6 then Ok(t.(strs := t.strs + [f.bs]))
    else if f.number == 2 then
      match Fold(f.bs, |f.bs|, [], SampleStep)
      case Err(e) => Err(e)
      case Ok(ids) => Ok(t.(samples := t.samples + [ids]))
    else if f.number == 4 then
      match Fold(f.bs, |f.bs|, Location(0, []), LocationStep)
      case Err(e) => Err(e)
      case Ok(l) => Ok(t.(locs := t.locs[l.id := l.fids]))
    else if f.number == 5 then
      match Fold(f.bs, |f.bs|, Func(0, -1), FuncStep)
      case Err(e) => Err(e)
      case Ok(fn) => Ok(t.(funcs := t.funcs[fn.id := fn.name]))
    else Ok(t)
  }

  // ---------------------------------------------------------------- resolution, after the whole pass

  function NameOf(t: Tables, fid: nat): Buffer {
    if fid !in t.funcs || t.funcs[fid] < 0 || t.funcs[fid] >= |t.strs| then [] else t.strs[t.funcs[fid]]
  }

  function FidsOf(t: Tables, lid: nat): seq<nat> {
    if lid in t.locs then t.locs[lid] else []
  }

  /** The non-empty names of the first `n` functions. */
  function NamesOfFuncs(t: Tables, fids: seq<nat>, n: nat): seq<Buffer>
    requires n <= |fids|
  {
    if n == 0 then []
    else
      NamesOfFuncs(t, fids, n - 1) + (if NameOf(t, fids[n - 1]) != [] then [NameOf(t, fids[n - 1])] else [])
  }

  function NamesOfLocs(t: Tables, lids: seq<nat>, n: nat): seq<Buffer>
    requires n <= |lids|
  {
    if n == 0 then []
    else NamesOfLocs(t, lids, n - 1) + NamesOfFuncs(t, FidsOf(t, lids[n - 1]), |FidsOf(t, lids[n - 1])|)
  }

  /** The leaf-first name lists of at least two names, one per sample. */
  function Stacks(t: Tables, n: nat): seq<seq<Buffer>>
    requires n <= |t.samples|
  {
    if n == 0 then []
    else
      var names := NamesOfLocs(t, t.samples[n - 1], |t.samples[n - 1]|);
      Stacks(t, n - 1) + (if |names| >= 2 then [names] else [])
  }

  function ParseStacks(data: Buffer): Result<seq<seq<Buffer>>, Error> {
    match Fold(data, |data|, EMPTY, ProfileStep)
    case Err(e) => Err(e)
    case Ok(t) => Ok(Stacks(t, |t.samples|))
  }

  // ---------------------------------------------------------------- what the stacks are

  /** The function's name is this entry of the string table, and not the empty one. */
  predicate IsNamed(t: Tables, fid: nat, name: Buffer) {
    fid in t.funcs && 0 <= t.funcs[fid] < |t.strs| && t.strs[t.funcs[fid]] == name && name != []
  }

  /** `place` is a line `.1` of the location `.0` of the sample whose function has this name. */
  predicate IsFrame(t: Tables, lids: seq<nat>, place: (nat, nat), name: Buffer) {
    && place.0 < |lids| && lids[place.0] in t.locs && place.1 < |t.locs[lids[place.0]]|
    && IsNamed(t, t.locs[lids[place.0]][place.1], name)
  }

  /** Earlier in the sample: in an earlier location, or earlier in the same one. */
  predicate Before(p: (nat, nat), q: (nat, nat)) {
    p.0 < q.0 || (p.0 == q.0 && p.1 < q.1)
  }

  lemma {:induction false} FuncNamesMean(t: Tables, fids: seq<nat>, n: nat) returns (at: seq<nat>)
    requires n <= |fids|
    ensures |at| == |NamesOfFuncs(t, fids, n)|
    ensures forall k :: 0 <= k < |at| ==> at[k] < n && IsNamed(t, fids[at[k]], NamesOfFuncs(t, fids, n)[k])
    ensures forall k, l :: 0 <= k < l < |at| ==> at[k] < at[l]
    ensures forall j, name :: 0 <= j < n && IsNamed(t, fids[j], name) ==> j in at
  {
    at := [];
    if n > 0 {
      at := FuncNamesMean(t, fids, n - 1);
      if NameOf(t, fids[n - 1]) != [] {
        at := at + [n - 1];
      }
    }
  }

  /** Places of the lines `at` of location `i`. */
  function PlacesOf(i: nat, at: seq<nat>): (places: seq<(nat, nat)>)
    ensures |places| == |at| && forall k :: 0 <= k < |at| ==> places[k] == (i, at[k])
  {
    seq(|at|, k requires 0 <= k < |at| => (i, at[k]))
  }

  /** `names` are those of the frames in the locations from `lo` to `hi` that have one, each frame
      once, in the order of the sample; `at` are the places. */
  ghost predicate ListsFrames(frame: ((nat, nat), Buffer) -> bool, lo: nat, hi: nat, names: seq<Buffer>, at: seq<(nat, nat)>) {
    && |at| == |names|
    && (forall k :: 0 <= k < |at| ==> lo <= at[k].0 < hi && frame(at[k], names[k]))
    && (forall k, l :: 0 <= k < l < |at| ==> Before(at[k], at[l]))
    && (forall place: (nat, nat), name :: lo <= place.0 < hi && frame(place, name) ==> place in at)
  }

  lemma FramesConcat(frame: ((nat, nat), Buffer) -> bool, i: nat, names: seq<Buffer>, at: seq<(nat, nat)>,
                     names': seq<Buffer>, at': seq<(nat, nat)>)
    requires ListsFrames(frame, 0, i, names, at) && ListsFrames(frame, i, i + 1, names', at')
    ensures ListsFrames(frame, 0, i + 1, names + names', at + at')
  {
  }

  function Frame(t: Tables, lids: seq<nat>): ((nat, nat), Buffer) -> bool {
    (place: (nat, nat), name: Buffer) => IsFrame(t, lids, place, name)
  }

  /** One location more. */
  lemma LocationNamesMean(t: Tables, lids: seq<nat>, i: nat) returns (at: seq<(nat, nat)>)
    requires i < |lids|
    ensures ListsFrames(Frame(t, lids), i, i + 1, NamesOfFuncs(t, FidsOf(t, lids[i]), |FidsOf(t, lids[i])|), at)
  {
    var fids := FidsOf(t, lids[i]);
    var lines := FuncNamesMean(t, fids, |fids|);
    at := PlacesOf(i, lines);
    forall place: (nat, nat), name | place.0 == i && IsFrame(t, lids, place, name)
      ensures place in at
    {
      assert place.1 in lines;
      var k :| 0 <= k < |lines| && lines[k] == place.1;
      assert at[k] == place;
    }
  }

  /** The names of a sample are those of its frames that have one, each frame once, in the order of the sample. */
  lemma {:induction false} NamesMean(t: Tables, lids: seq<nat>, n: nat) returns (at: seq<(nat, nat)>)
    requires n <= |lids|
    ensures ListsFrames(Frame(t, lids), 0, n, NamesOfLocs(t, lids, n), at)
  {
    at := [];
    if n > 0 {
      var front := NamesMean(t, lids, n - 1);
      var more := LocationNamesMean(t, lids, n - 1);
      var fids := FidsOf(t, lids[n - 1]);
      FramesConcat(Frame(t, lids), n - 1, NamesOfLocs(t, lids, n - 1), front, NamesOfFuncs(t, fids, |fids|), more);
      at := front + more;
    }
  }

  /** `s` lists `f(i)` for each `i` below `n` that gives at least two names, in order; `at` are these `i`. */
  ghost predicate ListsStacks(f: nat -> seq<Buffer>, n: nat, s: seq<seq<Buffer>>, at: seq<nat>) {
    && |at| == |s|
    && (forall k :: 0 <= k < |at| ==> at[k] < n && s[k] == f(at[k]))
    && (forall k, l :: 0 <= k < l < |at| ==> at[k] < at[l])
    && (forall i :: 0 <= i < n ==> (i in at <==> |f(i)| >= 2))
  }

  lemma ListsOneMore(f: nat -> seq<Buffer>, n: nat, s: seq<seq<Buffer>>, at: seq<nat>)
    requires ListsStacks(f, n, s, at)
    ensures |f(n)| >= 2 ==> ListsStacks(f, n + 1, s + [f(n)], at + [n])
    ensures |f(n)| < 2 ==> ListsStacks(f, n + 1, s + [], at)
  {
  }

  function NamesOfSample(t: Tables): nat -> seq<Buffer> {
    (i: nat) => if i < |t.samples| then NamesOfLocs(t, t.samples[i], |t.samples[i]|) else []
  }

  /** One stack for each sample with at least two names, in the order of the samples. */
  lemma {:induction false} StacksMean(t: Tables, n: nat) returns (at: seq<nat>)
    requires n <= |t.samples|
    ensures ListsStacks(NamesOfSample(t), n, Stacks(t, n), at)
  {
    at := [];
    if n > 0 {
      at := StacksMean(t, n - 1);
      var s, names := Stacks(t, n - 1), NamesOfSample(t)(n - 1);
      assert Stacks(t, n) == s + (if |names| >= 2 then [names] else []);
      ListsOneMore(NamesOfSample(t), n - 1, s, at);
      if |names| >= 2 {
        at := at + [n - 1];
      }
    }
  }

  // ---------------------------------------------------------------- serializations of a profile

  /** A location id list in pieces, each packed or not, other fields in between. */
  datatype SampleItem = One(v: nat) | Packed(vs: seq<nat>) | SampleOther(f: Field)

  datatype LocItem = LocId(v: nat) | Line(fs: seq<Field>) | LocOther(f: Field)

  /** One top-level field of a serialized profile. */
  datatype Entry =
    | StrEntry(bs: Buffer)
    | SampleEntry(items: seq<SampleItem>)
    | LocEntry(lines: seq<LocItem>)
    | FuncEntry(fs: seq<Field>)
    | OtherEntry(f: Field)

  function EncodeVarints(vs: seq<nat>): seq<Byte> {
    if vs == [] then [] else EncodeVarint(vs[0]) + EncodeVarints(vs[1..])
  }

  predicate All64Bits(vs: seq<nat>) {
    vs == [] || (vs[0] < TWO_64 && All64Bits(vs[1..]))
  }

  predicate FitsSampleItem(i: SampleItem) {
    match i
    case One(v) => v < TWO_64
    case Packed(vs) => |EncodeVarints(vs)| < TWO_63 && All64Bits(vs)
    case SampleOther(f) => ValidField(f) && !(f.number == 1 && (f.Varint? || f.Bytes?))
  }

  function SampleField(i: SampleItem): Field
    requires FitsSampleItem(i)
  {
    match i
    case One(v) => Varint(1, v)
    case Packed(vs) => Bytes(1, EncodeVarints(vs))
    case SampleOther(f) => f
  }

  predicate FitsSample(items: seq<SampleItem>) {
    items == [] || (FitsSampleItem(items[0]) && FitsSample(items[1..]))
  }

  function SampleFields(items: seq<SampleItem>): seq<Field>
    requires FitsSample(items)
  {
    if items == [] then [] else [SampleField(items[0])] + SampleFields(items[1..])
  }

  function Ids(items: seq<SampleItem>): seq<nat> {
    if items == [] then []
    else IdsOf(items[0]) + Ids(items[1..])
  }

  predicate FitsLocItem(i: LocItem) {
    match i
    case LocId(v) => v < TWO_64
    case Line(fs) => |Encode(fs)| < TWO_63 && Valid(fs)
    case LocOther(f) => ValidField(f) && !(f.number == 1 && f.Varint?) && !(f.number == 4 && f.Bytes?)
  }

  function LocField(i: LocItem): Field
    requires FitsLocItem(i)
  {
    match i
    case LocId(v) => Varint(1, v)
    case Line(fs) => Bytes(4, Encode(fs))
    case LocOther(f) => f
  }

  predicate FitsLoc(items: seq<LocItem>) {
    items == [] || (FitsLocItem(items[0]) && FitsLoc(items[1..]))
  }

  function LocFields(items: seq<LocItem>): seq<Field>
    requires FitsLoc(items)
  {
    if items == [] then [] else [LocField(items[0])] + LocFields(items[1..])
  }

  /** A singular field: the last occurrence counts. */
  function LastVarint(fs: seq<Field>, number: nat, default: int): (r: int)
    ensures default >= 0 ==> r >= 0
  {
    if fs == [] then default
    else LastVarint(fs[1..], number, if fs[0].number == number && fs[0].Varint? then fs[0].v else default)
  }

  function LocIdOf(items: seq<LocItem>, default: nat): nat {
    if items == [] then default else LocIdOf(items[1..], if items[0].LocId? then items[0].v else default)
  }

  function FidsOfItem(i: LocItem): seq<nat> {
    if i.Line? && LastVarint(i.fs, 1, 0) > 0 then [LastVarint(i.fs, 1, 0)] else []
  }

  /** The function ids of a location's lines, in order; a line without one adds none. */
  function LineFids(items: seq<LocItem>): seq<nat> {
    if items == [] then [] else FidsOfItem(items[0]) + LineFids(items[1..])
  }

  function FuncOf(fs: seq<Field>): (int, int) {
    var name := LastVarint(fs, 2, -1);
    (LastVarint(fs, 1, 0), if name < 0 then -1 else ToInt64(name))
  }

  predicate FitsEntry(e: Entry) {
    match e
    case StrEntry(_) => true
    case SampleEntry(items) =>
      && FitsSample(items)
      && |Encode(SampleFields(items))| < TWO_63
    case LocEntry(lines) =>
      && FitsLoc(lines)
      && |Encode(LocFields(lines))| < TWO_63
    case FuncEntry(fs) => Valid(fs) && |Encode(fs)| < TWO_63
    case OtherEntry(f) => ValidField(f) && !(f.Bytes? && f.number in {2, 4, 5, 6})
  }

  function EntryField(e: Entry): Field
    requires FitsEntry(e)
  {
    match e
    case StrEntry(bs) => Bytes(6, bs)
    case SampleEntry(items) => Bytes(2, Encode(SampleFields(items)))
    case LocEntry(lines) => Bytes(4, Encode(LocFields(lines)))
    case FuncEntry(fs) => Bytes(5, Encode(fs))
    case OtherEntry(f) => f
  }

  predicate Fits(es: seq<Entry>) {
    es == [] || (FitsEntry(es[0]) && Fits(es[1..]))
  }

  function EntryFields(es: seq<Entry>): seq<Field>
    requires Fits(es)
  {
    if es == [] then [] else [EntryField(es[0])] + EntryFields(es[1..])
  }

  // ---------------------------------------------------------------- each message decodes to what it says

  lemma {:induction false} PackedRoundTrip(vs: seq<nat>, acc: seq<nat>)
    requires All64Bits(vs)
    ensures PackedFrom(EncodeVarints(vs), acc) == Ok(acc + vs)
  {
    if vs != [] {
      ReadVarintRoundTrip(vs[0], EncodeVarints(vs[1..]));
      PackedRoundTrip(vs[1..], acc + [vs[0]]);
      assert acc + [vs[0]] + vs[1..] == acc + vs;
    } else {
      assert acc + vs == acc;
    }
  }

  function IdsOf(i: SampleItem): seq<nat> {
    match i case One(v) => [v] case Packed(vs) => vs case SampleOther(_) => []
  }

  lemma SampleItemMeans(i: SampleItem, acc: seq<nat>)
    requires FitsSampleItem(i)
    ensures ValidField(SampleField(i)) && SampleStep(acc, SampleField(i)) == Ok(acc + IdsOf(i))
  {
    if i.Packed? {
      PackedRoundTrip(i.vs, acc);
    } else if i.SampleOther? {
      assert acc + [] == acc;
    }
  }

  lemma ConsIsValid(f: Field, fs: seq<Field>)
    requires ValidField(f) && Valid(fs)
    ensures Valid([f] + fs)
  {
    assert ([f] + fs)[1..] == fs;
  }

  lemma FoldCons<A>(f: Field, fs: seq<Field>, acc: A, step: (A, Field) -> Result<A, Error>)
    requires step(acc, f).Ok?
    ensures FoldFields([f] + fs, acc, step) == FoldFields(fs, step(acc, f).value, step)
  {
    assert ([f] + fs)[1..] == fs;
  }

  lemma Regroup<T>(a: seq<T>, b: seq<T>, c: seq<T>)
    ensures (a + b) + c == a + (b + c)
    ensures a + [] == a
  {
  }

  lemma {:induction false} SampleMeans(items: seq<SampleItem>, acc: seq<nat>)
    requires FitsSample(items)
    ensures Valid(SampleFields(items))
    ensures FoldFields(SampleFields(items), acc, SampleStep) == Ok(acc + Ids(items))
    decreases |items|
  {
    Regroup(acc, if items == [] then [] else IdsOf(items[0]), if items == [] then [] else Ids(items[1..]));
    if items != [] {
      var f, fs := SampleField(items[0]), SampleFields(items[1..]);
      SampleItemMeans(items[0], acc);
      SampleMeans(items[1..], acc + IdsOf(items[0]));
      ConsIsValid(f, fs);
      FoldCons(f, fs, acc, SampleStep);
    }
  }

  lemma {:induction false} LineMeans(fs: seq<Field>, acc: nat)
    ensures FoldFields(fs, acc, LineStep) == Ok(LastVarint(fs, 1, acc)) && LastVarint(fs, 1, acc) >= 0
    decreases |fs|
  {
    if fs != [] {
      LineMeans(fs[1..], if fs[0].number == 1 && fs[0].Varint? then fs[0].v else acc);
    }
  }

  lemma LocItemMeans(i: LocItem, acc: Location)
    requires FitsLocItem(i)
    ensures ValidField(LocField(i))
    ensures LocationStep(acc, LocField(i)) == Ok(Location(if i.LocId? then i.v else acc.id, acc.fids + FidsOfItem(i)))
  {
    if i.Line? {
      MessageRoundTrip(i.fs, |Encode(i.fs)|, 0, LineStep);
      LineMeans(i.fs, 0);
    }
    assert acc.fids + [] == acc.fids;
  }

  lemma {:induction false} LocationMeans(items: seq<LocItem>, acc: Location)
    requires FitsLoc(items)
    ensures Valid(LocFields(items))
    ensures FoldFields(LocFields(items), acc, LocationStep)
         == Ok(Location(LocIdOf(items, acc.id), acc.fids + LineFids(items)))
    decreases |items|
  {
    Regroup(acc.fids, if items == [] then [] else FidsOfItem(items[0]), if items == [] then [] else LineFids(items[1..]));
    if items != [] {
      var f, fs := LocField(items[0]), LocFields(items[1..]);
      LocItemMeans(items[0], acc);
      LocationMeans(items[1..], Location(if items[0].LocId? then items[0].v else acc.id, acc.fids + FidsOfItem(items[0])));
      ConsIsValid(f, fs);
      FoldCons(f, fs, acc, LocationStep);
    }
  }

  lemma {:induction false} FuncMeans(fs: seq<Field>, id: nat, name: int)
    requires Valid(fs)
    requires -1 <= name < TWO_64
    ensures FoldFields(fs, Func(id, if name < 0 then -1 else ToInt64(name)), FuncStep)
         == Ok(Func(LastVarint(fs, 1, id),
                    if LastVarint(fs, 2, name) < 0 then -1 else ToInt64(LastVarint(fs, 2, name))))
    decreases |fs|
  {
    if fs != [] {
      var f := fs[0];
      FuncMeans(fs[1..],
                if f.number == 1 && f.Varint? then f.v else id,
                if f.number == 2 && f.Varint? then f.v else name);
    }
  }

  // ---------------------------------------------------------------- a whole profile

  /** What one more top-level field adds. */
  function AddEntry(t: Tables, e: Entry): Tables {
    match e
    case StrEntry(bs) => t.(strs := t.strs + [bs])
    case SampleEntry(items) => t.(samples := t.samples + [Ids(items)])
    case LocEntry(lines) => t.(locs := t.locs[LocIdOf(lines, 0) := LineFids(lines)])
    case FuncEntry(fs) => t.(funcs := t.funcs[FuncOf(fs).0 := FuncOf(fs).1])
    case OtherEntry(_) => t
  }

  function AddEntries(t: Tables, es: seq<Entry>): Tables
    decreases |es|
  {
    if es == [] then t else AddEntries(AddEntry(t, es[0]), es[1..])
  }

  lemma EntryMeans(e: Entry, t: Tables)
    requires FitsEntry(e)
    ensures ValidField(EntryField(e)) && ProfileStep(t, EntryField(e)) == Ok(AddEntry(t, e))
  {
    match e {
      case StrEntry(_) =>
      case SampleEntry(items) =>
        SampleMeans(items, []);
        MessageRoundTrip(SampleFields(items), |Encode(SampleFields(items))|, [], SampleStep);
        assert [] + Ids(items) == Ids(items);
      case LocEntry(lines) =>
        LocationMeans(lines, Location(0, []));
        MessageRoundTrip(LocFields(lines), |Encode(LocFields(lines))|, Location(0, []), LocationStep);
        assert [] + LineFids(lines) == LineFids(lines);
      case FuncEntry(fs) =>
        FuncMeans(fs, 0, -1);
        MessageRoundTrip(fs, |Encode(fs)|, Func(0, -1), FuncStep);
      case OtherEntry(_) =>
    }
  }

  lemma {:induction false} EntriesMean(es: seq<Entry>, t: Tables)
    requires Fits(es)
    ensures Valid(EntryFields(es))
    ensures FoldFields(EntryFields(es), t, ProfileStep) == Ok(AddEntries(t, es))
    decreases |es|
  {
    if es != [] {
      EntryMeans(es[0], t);
      EntriesMean(es[1..], AddEntry(t, es[0]));
      ConsIsValid(EntryField(es[0]), EntryFields(es[1..]));
      FoldCons(EntryField(es[0]), EntryFields(es[1..]), t, ProfileStep);
    }
  }

  function Strings(es: seq<Entry>): seq<Buffer> {
    if es == [] then [] else (if es[0].StrEntry? then [es[0].bs] else []) + Strings(es[1..])
  }

  function Samples(es: seq<Entry>): seq<seq<nat>> {
    if es == [] then [] else (if es[0].SampleEntry? then [Ids(es[0].items)] else []) + Samples(es[1..])
  }

  predicate SaysLoc(e: Entry, id: nat) {
    e.LocEntry? && LocIdOf(e.lines, 0) == id
  }

  predicate SaysFunc(e: Entry, id: nat) {
    e.FuncEntry? && FuncOf(e.fs).0 == id
  }

  /** Every location field is one of `locs`, and each of these is given. */
  ghost predicate GivesLocs(es: seq<Entry>, locs: map<nat, seq<nat>>) {
    && (forall k :: 0 <= k < |es| && es[k].LocEntry? ==>
          LocIdOf(es[k].lines, 0) in locs && locs[LocIdOf(es[k].lines, 0)] == LineFids(es[k].lines))
    && (forall id :: id in locs ==> exists k :: 0 <= k < |es| && SaysLoc(es[k], id))
  }

  ghost predicate GivesFuncs(es: seq<Entry>, funcs: map<nat, int>) {
    && (forall k :: 0 <= k < |es| && es[k].FuncEntry? ==>
          FuncOf(es[k].fs).0 in funcs && funcs[FuncOf(es[k].fs).0] == FuncOf(es[k].fs).1)
    && (forall id :: id in funcs ==> exists k :: 0 <= k < |es| && SaysFunc(es[k], id))
  }

  /** `es` is a serialization of `p`: its string and sample fields are those of
      `p` in order, its location and function fields are those of `p` in any
      order, and they may be mixed with each other and with unknown fields. */
  ghost predicate Serializes(es: seq<Entry>, p: Tables) {
    && Fits(es)
    && Strings(es) == p.strs && Samples(es) == p.samples
    && GivesLocs(es, p.locs) && GivesFuncs(es, p.funcs)
  }

  lemma {:induction false} CollectsStrings(es: seq<Entry>, t: Tables)
    ensures AddEntries(t, es).strs == t.strs + Strings(es)
    decreases |es|
  {
    if es == [] {
      Regroup(t.strs, [], []);
    } else {
      var now := if es[0].StrEntry? then [es[0].bs] else [];
      Regroup(t.strs, now, Strings(es[1..]));
      CollectsStrings(es[1..], AddEntry(t, es[0]));
    }
  }

  lemma {:induction false} CollectsSamples(es: seq<Entry>, t: Tables)
    ensures AddEntries(t, es).samples == t.samples + Samples(es)
    decreases |es|
  {
    if es == [] {
      Regroup(t.samples, [], []);
    } else {
      var now := if es[0].SampleEntry? then [Ids(es[0].items)] else [];
      Regroup(t.samples, now, Samples(es[1..]));
      CollectsSamples(es[1..], AddEntry(t, es[0]));
    }
  }

  ghost predicate Within<V>(m: map<nat, V>, p: map<nat, V>) {
    forall id :: id in m ==> id in p && p[id] == m[id]
  }

  lemma {:induction false} CollectsLocs(es: seq<Entry>, t: Tables, locs: map<nat, seq<nat>>)
    requires Within(t.locs, locs)
    requires forall k :: 0 <= k < |es| && es[k].LocEntry? ==>
      LocIdOf(es[k].lines, 0) in locs && locs[LocIdOf(es[k].lines, 0)] == LineFids(es[k].lines)
    ensures var r := AddEntries(t, es);
      && Within(r.locs, locs) && t.locs.Keys <= r.locs.Keys
      && (forall k :: 0 <= k < |es| && es[k].LocEntry? ==> LocIdOf(es[k].lines, 0) in r.locs)
    decreases |es|
  {
    if es != [] {
      CollectsLocs(es[1..], AddEntry(t, es[0]), locs);
      assert forall k :: 0 < k < |es| ==> es[k] == es[1..][k - 1];
    }
  }

  lemma {:induction false} CollectsFuncs(es: seq<Entry>, t: Tables, funcs: map<nat, int>)
    requires Within(t.funcs, funcs)
    requires forall k :: 0 <= k < |es| && es[k].FuncEntry? ==>
      FuncOf(es[k].fs).0 in funcs && funcs[FuncOf(es[k].fs).0] == FuncOf(es[k].fs).1
    ensures var r := AddEntries(t, es);
      && Within(r.funcs, funcs) && t.funcs.Keys <= r.funcs.Keys
      && (forall k :: 0 <= k < |es| && es[k].FuncEntry? ==> FuncOf(es[k].fs).0 in r.funcs)
    decreases |es|
  {
    if es != [] {
      CollectsFuncs(es[1..], AddEntry(t, es[0]), funcs);
      assert forall k :: 0 < k < |es| ==> es[k] == es[1..][k - 1];
    }
  }

  lemma WithinAndCovering<V>(m: map<nat, V>, p: map<nat, V>)
    requires Within(m, p) && p.Keys <= m.Keys
    ensures m == p
  {
    assert m.Keys == p.Keys;
  }

  lemma CollectsAllLocs(es: seq<Entry>, locs: map<nat, seq<nat>>)
    requires GivesLocs(es, locs)
    ensures AddEntries(EMPTY, es).locs == locs
  {
    CollectsLocs(es, EMPTY, locs);
    forall id | id in locs
      ensures id in AddEntries(EMPTY, es).locs
    {
      var k :| 0 <= k < |es| && SaysLoc(es[k], id);
    }
    WithinAndCovering(AddEntries(EMPTY, es).locs, locs);
  }

  lemma CollectsAllFuncs(es: seq<Entry>, funcs: map<nat, int>)
    requires GivesFuncs(es, funcs)
    ensures AddEntries(EMPTY, es).funcs == funcs
  {
    CollectsFuncs(es, EMPTY, funcs);
    forall id | id in funcs
      ensures id in AddEntries(EMPTY, es).funcs
    {
      var k :| 0 <= k < |es| && SaysFunc(es[k], id);
    }
    WithinAndCovering(AddEntries(EMPTY, es).funcs, funcs);
  }

  lemma CollectsProfile(es: seq<Entry>, p: Tables)
    requires Serializes(es, p)
    ensures AddEntries(EMPTY, es) == p
  {
    CollectsStrings(es, EMPTY);
    CollectsSamples(es, EMPTY);
    CollectsAllLocs(es, p.locs);
    CollectsAllFuncs(es, p.funcs);
    assert [] + p.strs == p.strs && [] + p.samples == p.samples;
  }

  /** The wire round trip: every serialization of a profile parses to exactly
      the stacks that the profile's own tables give. */
  lemma ProfileRoundTrip(es: seq<Entry>, p: Tables)
    requires Serializes(es, p) && |Encode(EntryFields(es))| < TWO_63
    ensures ParseStacks(Encode(EntryFields(es))) == Ok(Stacks(p, |p.samples|))
  {
    EntriesMean(es, EMPTY);
    MessageRoundTrip(EntryFields(es), |Encode(EntryFields(es))|, EMPTY, ProfileStep);
    CollectsProfile(es, p);
  }

  /** How the fields were ordered, packed or padded makes no difference. */
  lemma SerializationDoesNotMatter(es: seq<Entry>, es': seq<Entry>, p: Tables)
    requires Serializes(es, p) && |Encode(EntryFields(es))| < TWO_63
    requires Serializes(es', p) && |Encode(EntryFields(es'))| < TWO_63
    ensures ParseStacks(Encode(EntryFields(es))) == ParseStacks(Encode(EntryFields(es')))
  {
    ProfileRoundTrip(es, p);
    ProfileRoundTrip(es', p);
  }

  // ---------------------------------------------------------------- the parsing methods

  method ParsePacked(bs: Buffer, ids: seq<nat>) returns (r: Result<seq<nat>, Error>)
    ensures r == PackedFrom(bs, ids)
  {
    var p := new ProtoReader(bs);
    var locs := ids;
    while p.pos < |p.buf|
      invariant p.Valid() && p.buf == bs
      invariant PackedFrom(p.Rest(), locs) == PackedFrom(bs, ids)
      decreases |p.Rest()|
    {
      var v := p.DoVarint();
      if v.Err? {
        return Err(v.error);
      }
      locs := locs + [v.value];
    }
    return Ok(locs);
  }

  method ParseSample(msg: Buffer) returns (r: Result<seq<nat>, Error>)
    ensures r == Fold(msg, |msg|, [], SampleStep)
  {
    var p := new ProtoReader(msg);
    var locs: seq<nat> := [];
    while p.pos < |p.buf|
      invariant p.Valid() && p.buf == msg
      invariant Fold(p.Rest(), |msg|, locs, SampleStep) == Fold(msg, |msg|, [], SampleStep)
      decreases |p.Rest()|
    {
      var tag := p.DoTag();
      if tag.Err? {
        return Err(tag.error);
      }
      var (field, wire) := tag.value;
      if field == 1 && wire == 2 {
        var packed := p.DoBytes();
        if packed.Err? {
          return Err(packed.error);
        }
        var more := ParsePacked(packed.value, locs);
        if more.Err? {
          return more;
        }
        locs := more.value;
      } else if field == 1 && wire == 0 {
        var v := p.DoVarint();
        if v.Err? {
          return Err(v.error);
        }
        locs := locs + [v.value];
      } else {
        var skipped := p.DoSkip(field, wire);
        if skipped.Err? {
          return Err(skipped.error);
        }
      }
    }
    return Ok(locs);
  }

  method ParseLine(msg: Buffer) returns (r: Result<nat, Error>)
    ensures r == Fold(msg, |msg|, 0, LineStep)
  {
    var p := new ProtoReader(msg);
    var fid: nat := 0;
    while p.pos < |p.buf|
      invariant p.Valid() && p.buf == msg
      invariant Fold(p.Rest(), |msg|, fid, LineStep) == Fold(msg, |msg|, 0, LineStep)
      decreases |p.Rest()|
    {
      var tag := p.DoTag();
      if tag.Err? {
        return Err(tag.error);
      }
      var (field, wire) := tag.value;
      if field == 1 && wire == 0 {
        var v := p.DoVarint();
        if v.Err? {
          return v;
        }
        fid := v.value;
      } else {
        var skipped := p.DoSkip(field, wire);
        if skipped.Err? {
          return Err(skipped.error);
        }
      }
    }
    return Ok(fid);
  }

  method ParseLocation(msg: Buffer) returns (r: Result<Location, Error>)
    ensures r == Fold(msg, |msg|, Location(0, []), LocationStep)
  {
    var p := new ProtoReader(msg);
    var id: nat, fids: seq<nat> := 0, [];
    while p.pos < |p.buf|
      invariant p.Valid() && p.buf == msg
      invariant Fold(p.Rest(), |msg|, Location(id, fids), LocationStep) == Fold(msg, |msg|, Location(0, []), LocationStep)
      decreases |p.Rest()|
    {
      var tag := p.DoTag();
      if tag.Err? {
        return Err(tag.error);
      }
      var (field, wire) := tag.value;
      if field == 1 && wire == 0 {
        var v := p.DoVarint();
        if v.Err? {
          return Err(v.error);
        }
        id := v.value;
      } else if field == 4 && wire == 2 {
        var line := p.DoBytes();
        if line.Err? {
          return Err(line.error);
        }
        var fid := ParseLine(line.value);
        if fid.Err? {
          return Err(fid.error);
        }
        if fid.value != 0 {
          fids := fids + [fid.value];
        }
      } else {
        var skipped := p.DoSkip(field, wire);
        if skipped.Err? {
          return Err(skipped.error);
        }
      }
    }
    return Ok(Location(id, fids));
  }

  method ParseFunction(msg: Buffer) returns (r: Result<Func, Error>)
    ensures r == Fold(msg, |msg|, Func(0, -1), FuncStep)
  {
    var p := new ProtoReader(msg);
    var id: nat, name := 0, -1;
    while p.pos < |p.buf|
      invariant p.Valid() && p.buf == msg
      invariant Fold(p.Rest(), |msg|, Func(id, name), FuncStep) == Fold(msg, |msg|, Func(0, -1), FuncStep)
      decreases |p.Rest()|
    {
      var tag := p.DoTag();
      if tag.Err? {
        return Err(tag.error);
      }
      var (field, wire) := tag.value;
      if (field == 1 || field == 2) && wire == 0 {
        var v := p.DoVarint();
        if v.Err? {
          return Err(v.error);
        }
        if field == 1 {
          id := v.value;
        } else {
          name := ToInt64(v.value);
        }
      } else {
        var skipped := p.DoSkip(field, wire);
        if skipped.Err? {
          return Err(skipped.error);
        }
      }
    }
    return Ok(Func(id, name));
  }

  /** One iteration of the top-level loop on a length-delimited field it knows. */
  method ParseKnown(t: Tables, field: nat, bs: Buffer) returns (r: Result<Tables, Error>)
    requires field in {2, 4, 5, 6}
    ensures r == ProfileStep(t, Bytes(field, bs))
  {
    if field == 6 {
      return Ok(t.(strs := t.strs + [bs]));
    } else if field == 2 {
      var ids := ParseSample(bs);
      return if ids.Err? then Err(ids.error) else Ok(t.(samples := t.samples + [ids.value]));
    } else if field == 4 {
      var l := ParseLocation(bs);
      return if l.Err? then Err(l.error) else Ok(t.(locs := t.locs[l.value.id := l.value.fids]));
    } else {
      var fn := ParseFunction(bs);
      return if fn.Err? then Err(fn.error) else Ok(t.(funcs := t.funcs[fn.value.id := fn.value.name]));
    }
  }

  method ParseTables(data: Buffer) returns (r: Result<Tables, Error>)
    ensures r == Fold(data, |data|, EMPTY, ProfileStep)
  {
    var p := new ProtoReader(data);
    var t := EMPTY;
    while p.pos < |p.buf|
      invariant p.Valid() && p.buf == data
      invariant Fold(p.Rest(), |data|, t, ProfileStep) == Fold(data, |data|, EMPTY, ProfileStep)
      decreases |p.Rest()|
    {
      var tag := p.DoTag();
      if tag.Err? {
        return Err(tag.error);
      }
      var (field, wire) := tag.value;
      if wire == 2 && (field == 2 || field == 4 || field == 5 || field == 6) {
        var bs := p.DoBytes();
        if bs.Err? {
          return Err(bs.error);
        }
        var t' := ParseKnown(t, field, bs.value);
        if t'.Err? {
          return t';
        }
        t := t'.value;
      } else {
        var skipped := p.DoSkip(field, wire);
        if skipped.Err? {
          return Err(skipped.error);
        }
      }
    }
    return Ok(t);
  }

  method ResolveStack(t: Tables, lids: seq<nat>) returns (names: seq<Buffer>)
    ensures names == NamesOfLocs(t, lids, |lids|)
  {
    names := [];
    for i := 0 to |lids|
      invariant names == NamesOfLocs(t, lids, i)
    {
      var fids := FidsOf(t, lids[i]);
      ghost var before := names;
      assert before + [] == before;
      for j := 0 to |fids|
        invariant names == before + NamesOfFuncs(t, fids, j)
      {
        if NameOf(t, fids[j]) != [] {
          Regroup(before, NamesOfFuncs(t, fids, j), [NameOf(t, fids[j])]);
          names := names + [NameOf(t, fids[j])];
        }
        assert NamesOfFuncs(t, fids, j) + [] == NamesOfFuncs(t, fids, j);
      }
    }
  }

  method ParseProfileStacks(data: Buffer) returns (r: Result<seq<seq<Buffer>>, Error>)
    ensures r == ParseStacks(data)
  {
    var t := ParseTables(data);
    if t.Err? {
      return Err(t.error);
    }
    var out: seq<seq<Buffer>> := [];
    for i := 0 to |t.value.samples|
      invariant out == Stacks(t.value, i)
    {
      var names := ResolveStack(t.value, t.value.samples[i]);
      if |names| >= 2 {
        out := out + [names];
      }
      assert Stacks(t.value, i) + [] == Stacks(t.value, i);
    }
    return Ok(out);
  }
}
