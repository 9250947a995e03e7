/** Layered configuration: the deep merge, validation and dotted paths
    (daemon/src/config/load.ts and daemon/src/cli/config.ts), on JSON trees. */
module Config {
  import opened Common

  datatype Json =
    | Null
    | Bool(b: bool)
    | Num(n: real)
    | Str(s: string)
    | Arr(items: seq<Json>)
    | Obj(fields: map<string, Json>)

  // ---------------------------------------------------------------- deep merge

  /** Plain objects merge key by key; anything else in `s` replaces what `t` has. */
  function Merge(t: Json, s: Json): Json {
    if !s.Obj? then t
    else if !t.Obj? then s
    else
      Obj(map k | k in t.fields.Keys + s.fields.Keys ::
        if k !in s.fields then t.fields[k]
        else if k in t.fields && t.fields[k].Obj? && s.fields[k].Obj? then Merge(t.fields[k], s.fields[k])
        else s.fields[k])
  }

  method DeepMerge(target: Json, source: Json) returns (out: Json)
    ensures out == Merge(target, source)
    decreases source
  {
    if !source.Obj? {
      return target;
    }
    if !target.Obj? {
      return source;
    }
    var fields, left := target.fields, source.fields.Keys;
    while left != {}
      invariant left <= source.fields.Keys
      invariant fields.Keys == target.fields.Keys + (source.fields.Keys - left)
      invariant forall k :: k in fields ==>
        fields[k] == if k in source.fields && k !in left then Merge(target, source).fields[k] else target.fields[k]
      decreases left
    {
      var key :| key in left;
      var val := source.fields[key];
      if val.Obj? && key in fields && fields[key].Obj? {
        var merged := DeepMerge(fields[key], val);
        fields := fields[key := merged];
      } else {
        fields := fields[key := val];
      }
      left := left - {key};
    }
    assert fields == Merge(target, source).fields;
    out := Obj(fields);
  }

  /** What an object has under a key. */
  function At(o: Json, k: string): Option<Json> {
    if o.Obj? && k in o.fields then Some(o.fields[k]) else None
  }

  function Combine(a: Option<Json>, b: Option<Json>): Option<Json> {
    if b.None? then a
    else if a.Some? && a.value.Obj? && b.value.Obj? then Some(Merge(a.value, b.value))
    else b
  }

  lemma MergeAt(a: Json, b: Json, k: string)
    requires a.Obj? && b.Obj?
    ensures At(Merge(a, b), k) == Combine(At(a, k), At(b, k))
  {
  }

  lemma SameFields(a: Json, b: Json)
    requires a.Obj? && b.Obj? && forall k :: At(a, k) == At(b, k)
    ensures a == b
  {
    forall k
      ensures k in a.fields <==> k in b.fields
      ensures k in a.fields ==> a.fields[k] == b.fields[k]
    {
      assert At(a, k) == At(b, k);
    }
    assert a.fields == b.fields;
  }

  /** Merging a config into itself changes nothing. */
  lemma {:induction false} MergeSelf(x: Json)
    ensures Merge(x, x) == x
  {
    if x.Obj? {
      forall k
        ensures At(Merge(x, x), k) == At(x, k)
      {
        MergeAt(x, x, k);
        if k in x.fields {
          MergeSelf(x.fields[k]);
        }
      }
      SameFields(Merge(x, x), x);
    }
  }

  /** Applying a layer twice is applying it once. */
  lemma {:induction false} MergeTwice(a: Json, b: Json)
    ensures Merge(Merge(a, b), b) == Merge(a, b)
  {
    if a.Obj? && b.Obj? {
      var m := Merge(a, b);
      forall k
        ensures At(Merge(m, b), k) == At(m, k)
      {
        MergeAt(a, b, k);
        MergeAt(m, b, k);
        if k in b.fields {
          MergeSelf(b.fields[k]);
          if k in a.fields {
            MergeTwice(a.fields[k], b.fields[k]);
          }
        }
      }
      SameFields(Merge(m, b), m);
    } else {
      MergeSelf(b);
    }
  }

  /** What was merged over `a` already contains `a`. */
  lemma {:induction false} MergeAbsorbs(a: Json, b: Json)
    ensures Merge(a, Merge(a, b)) == Merge(a, b)
  {
    if a.Obj? && b.Obj? {
      var m := Merge(a, b);
      forall k
        ensures At(Merge(a, m), k) == At(m, k)
      {
        MergeAt(a, b, k);
        MergeAt(a, m, k);
        if k in a.fields {
          MergeSelf(a.fields[k]);
          if k in b.fields {
            MergeAbsorbs(a.fields[k], b.fields[k]);
          }
        }
      }
      SameFields(Merge(a, m), m);
    } else {
      MergeSelf(a);
    }
  }

  // ---------------------------------------------------------------- associativity

  /** `c` has every key of `a`, and again inside every object they share. */
  predicate Covers(c: Json, a: Json)
    requires c.Obj? && a.Obj?
    decreases a
  {
    forall k :: k in a.fields ==>
      k in c.fields && (a.fields[k].Obj? && c.fields[k].Obj? ==> Covers(c.fields[k], a.fields[k]))
  }

  /** Somewhere a plain value of `b` cuts off an object of `a` that `c` replaces only in part. */
  predicate CutsOff(a: Json, b: Json, c: Json)
    decreases a
  {
    a.Obj? && b.Obj? && c.Obj? &&
    exists k :: k in a.fields && k in b.fields && k in c.fields && a.fields[k].Obj? && c.fields[k].Obj?
      && (if b.fields[k].Obj? then CutsOff(a.fields[k], b.fields[k], c.fields[k]) else !Covers(c.fields[k], a.fields[k]))
  }

  lemma {:induction false} CoversMeans(c: Json, a: Json)
    requires c.Obj? && a.Obj?
    ensures Covers(c, a) <==> Merge(a, c) == c
    decreases a
  {
    forall k | k in a.fields && k in c.fields && a.fields[k].Obj? && c.fields[k].Obj?
      ensures Covers(c.fields[k], a.fields[k]) <==> Merge(a.fields[k], c.fields[k]) == c.fields[k]
    {
      CoversMeans(c.fields[k], a.fields[k]);
    }
    forall k
      ensures At(Merge(a, c), k) == Combine(At(a, k), At(c, k))
    {
      MergeAt(a, c, k);
    }
    if Covers(c, a) {
      SameFields(Merge(a, c), c);
    } else {
      var k :| k in a.fields && !(k in c.fields && (a.fields[k].Obj? && c.fields[k].Obj? ==> Covers(c.fields[k], a.fields[k])));
      assert At(Merge(a, c), k) != At(c, k);
    }
  }

  lemma AssociatesAt(a: Option<Json>, b: Option<Json>, c: Option<Json>)
    ensures Combine(Combine(a, b), c) == Combine(a, Combine(b, c)) <==>
      (a.Some? && b.Some? && c.Some? && a.value.Obj? && c.value.Obj? ==>
        if b.value.Obj? then Merge(Merge(a.value, b.value), c.value) == Merge(a.value, Merge(b.value, c.value))
        else Covers(c.value, a.value))
  {
    if a.Some? && c.Some? && a.value.Obj? && c.value.Obj? {
      CoversMeans(c.value, a.value);
    }
  }

  /** The order of grouping layers matters exactly when a plain value cuts off an object. */
  lemma {:induction false} MergeAssociatesIff(a: Json, b: Json, c: Json)
    ensures Merge(Merge(a, b), c) == Merge(a, Merge(b, c)) <==> !CutsOff(a, b, c)
    decreases a
  {
    if a.Obj? && b.Obj? && c.Obj? {
      var l, r := Merge(Merge(a, b), c), Merge(a, Merge(b, c));
      forall k
        ensures At(l, k) == At(r, k) <==>
          !(k in a.fields && k in b.fields && k in c.fields && a.fields[k].Obj? && c.fields[k].Obj?
            && (if b.fields[k].Obj? then CutsOff(a.fields[k], b.fields[k], c.fields[k]) else !Covers(c.fields[k], a.fields[k])))
      {
        MergeAt(a, b, k);
        MergeAt(Merge(a, b), c, k);
        MergeAt(b, c, k);
        MergeAt(a, Merge(b, c), k);
        AssociatesAt(At(a, k), At(b, k), At(c, k));
        if k in a.fields && k in b.fields && k in c.fields {
          MergeAssociatesIff(a.fields[k], b.fields[k], c.fields[k]);
        }
      }
      if !CutsOff(a, b, c) {
        SameFields(l, r);
      }
    }
  }

  /** Three one-key layers whose grouping matters. */
  lemma MergeIsNotAssociative()
    ensures var a := Obj(map["x" := Obj(map["p" := Null])]);
      var b, c := Obj(map["x" := Null]), Obj(map["x" := Obj(map["q" := Null])]);
      Merge(Merge(a, b), c) != Merge(a, Merge(b, c))
  {
    var a := Obj(map["x" := Obj(map["p" := Null])]);
    var b, c := Obj(map["x" := Null]), Obj(map["x" := Obj(map["q" := Null])]);
    assert "p" in a.fields["x"].fields && "p" !in c.fields["x"].fields;
    assert "x" in a.fields && "x" in b.fields && "x" in c.fields;
    MergeAssociatesIff(a, b, c);
  }

  // ---------------------------------------------------------------- dotted paths

  /** The position of the element that an array holds under the property name `p`, or `n`. */
  function Index(p: string, n: nat): nat {
    if n == 0 then 0
    else
      var i := Index(p, n - 1);
      if i < n - 1 || p == Digits(n - 1) then i else n
  }

  /** `cur[p]`: only objects and arrays have members. */
  function Member(cur: Json, p: string): Option<Json> {
    match cur
    case Obj(fields) => At(cur, p)
    case Arr(items) =>
      if p == "length" then Some(Num(|items| as real))
      else if Index(p, |items|) < |items| then Some(items[Index(p, |items|)])
      else None
    case _ => None
  }

  /** The value at `parts[i..]` below `cur`. */
  function Get(cur: Json, parts: seq<string>, i: nat): Option<Json>
    requires i <= |parts|
    decreases |parts| - i
  {
    if i == |parts| then Some(cur)
    else
      var next := Member(cur, parts[i]);
      if next.None? then None else Get(next.value, parts, i + 1)
  }

  method GetByPath(obj: Json, parts: seq<string>) returns (r: Option<Json>)
    requires obj.Obj?
    ensures r == Get(obj, parts, 0)
  {
    var cur := Some(obj);
    for i := 0 to |parts|
      invariant cur.Some? ==> Get(cur.value, parts, i) == Get(obj, parts, 0)
      invariant cur.None? ==> Get(obj, parts, 0) == None
    {
      if cur.None? || !(cur.value.Obj? || cur.value.Arr?) {
        return None;
      }
      cur := Member(cur.value, parts[i]);
    }
    return cur;
  }

  /** The object under `p`, or a fresh one in place of anything else. */
  function Child(obj: Json, p: string): (child: Json)
    requires obj.Obj?
    ensures child.Obj?
  {
    if p in obj.fields && obj.fields[p].Obj? then obj.fields[p] else Obj(map[])
  }

  function Set(obj: Json, parts: seq<string>, i: nat, value: Json): (r: Json)
    requires obj.Obj? && i < |parts|
    ensures r.Obj?
    decreases |parts| - i
  {
    Obj(obj.fields[parts[i] := if i == |parts| - 1 then value else Set(Child(obj, parts[i]), parts, i + 1, value)])
  }

  /** The way back up: the objects above a changed one hold it in its place. */
  function Rebuild(above: seq<Json>, parts: seq<string>, changed: Json): (r: Json)
    requires changed.Obj? && |above| <= |parts| && forall k :: 0 <= k < |above| ==> above[k].Obj?
    ensures r.Obj?
  {
    if above == [] then changed
    else
      var k := |above| - 1;
      Rebuild(above[..k], parts, Obj(above[k].fields[parts[k] := changed]))
  }

  /** The cursor goes down to the object that gets the value, through fresh ones where it meets none. */
  method SetByPath(obj: Json, parts: seq<string>, value: Json) returns (r: Json)
    requires obj.Obj? && parts != []
    ensures r == Set(obj, parts, 0, value)
  {
    var cur, above: seq<Json> := obj, [];
    for i := 0 to |parts| - 1
      invariant cur.Obj? && |above| == i && forall k :: 0 <= k < i ==> above[k].Obj?
      invariant Rebuild(above, parts, Set(cur, parts, i, value)) == Set(obj, parts, 0, value)
    {
      var next := Member(cur, parts[i]);
      above := above + [cur];
      assert above[..i] + [cur] == above;
      cur := if next.Some? && next.value.Obj? then next.value else Obj(map[]);
    }
    r := Rebuild(above, parts, Obj(cur.fields[parts[|parts| - 1] := value]));
  }

  lemma {:induction false} GetAfterSet(obj: Json, parts: seq<string>, i: nat, value: Json)
    requires obj.Obj? && i < |parts|
    ensures Get(Set(obj, parts, i, value), parts, i) == Some(value)
    decreases |parts| - i
  {
    if i < |parts| - 1 {
      GetAfterSet(Child(obj, parts[i]), parts, i + 1, value);
    }
  }

  /** The paths part at `j`, and agree before it. */
  predicate PartAt(parts: seq<string>, other: seq<string>, j: nat) {
    j < |parts| && j < |other| && parts[j] != other[j] && forall k :: 0 <= k < j ==> parts[k] == other[k]
  }

  /** On the way from `cur` to the parting the first thing that is not an object is an array. */
  predicate MeetsArray(cur: Json, parts: seq<string>, i: nat, j: nat)
    requires i <= j < |parts|
    decreases j - i
  {
    cur.Arr? || (cur.Obj? && i < j && parts[i] in cur.fields && MeetsArray(cur.fields[parts[i]], parts, i + 1, j))
  }

  lemma {:induction false} FreshIsEmpty(parts: seq<string>, i: nat, value: Json, other: seq<string>, j: nat)
    requires PartAt(parts, other, j) && i <= j
    ensures Get(Set(Obj(map[]), parts, i, value), other, i) == None
    decreases j - i
  {
    if i < j {
      FreshIsEmpty(parts, i + 1, value, other, j);
    }
  }

  /** A path that is neither above nor below the one set keeps its value,
      unless it led through an array that had to make way for an object. */
  lemma {:induction false} SetElsewhere(obj: Json, parts: seq<string>, i: nat, value: Json, other: seq<string>, j: nat)
    requires obj.Obj? && PartAt(parts, other, j) && i <= j
    ensures Get(Set(obj, parts, i, value), other, i)
         == if MeetsArray(obj, parts, i, j) then None else Get(obj, other, i)
    decreases j - i
  {
    if i < j {
      var p := parts[i];
      if p in obj.fields && obj.fields[p].Obj? {
        SetElsewhere(obj.fields[p], parts, i + 1, value, other, j);
      } else {
        FreshIsEmpty(parts, i + 1, value, other, j);
      }
    }
  }

  /** Such a path: setting `a.b` takes `a.0` away when `a` is an array. */
  lemma ArrayMakesWay(value: Json)
    ensures var obj := Obj(map["a" := Arr([Str("x")])]);
      && Get(obj, ["a", "0"], 0) == Some(Str("x"))
      && Get(Set(obj, ["a", "b"], 0, value), ["a", "0"], 0) == None
  {
    var obj := Obj(map["a" := Arr([Str("x")])]);
    assert "0" == Digits(0) && "0"[0] != "b"[0];
    assert Index("0", 1) == 0;
    assert Get(obj.fields["a"], ["a", "0"], 1) == Get(Str("x"), ["a", "0"], 2);
    SetElsewhere(obj, ["a", "b"], 0, value, ["a", "0"], 1);
  }

  /** `parts` leads through objects only. */
  predicate ThroughObjects(o: Json, parts: seq<string>, i: nat)
    requires i <= |parts|
    decreases |parts| - i
  {
    i < |parts| ==> o.Obj? && parts[i] in o.fields && ThroughObjects(o.fields[parts[i]], parts, i + 1)
  }

  /** A plain value of the later layer wins. */
  lemma {:induction false} LaterLayerWins(a: Json, b: Json, parts: seq<string>, i: nat)
    requires i < |parts| && a.Obj? && ThroughObjects(b, parts, i) && Get(b, parts, i) != None && !Get(b, parts, i).value.Obj?
    ensures ThroughObjects(Merge(a, b), parts, i) && Get(Merge(a, b), parts, i) == Get(b, parts, i)
    decreases |parts| - i
  {
    var p := parts[i];
    MergeAt(a, b, p);
    if i + 1 < |parts| && p in a.fields && a.fields[p].Obj? {
      LaterLayerWins(a.fields[p], b.fields[p], parts, i + 1);
    }
  }

  lemma {:induction false} SetIsThroughObjects(obj: Json, parts: seq<string>, i: nat, value: Json)
    requires obj.Obj? && i < |parts|
    ensures ThroughObjects(Set(obj, parts, i, value), parts, i)
    decreases |parts| - i
  {
    if i < |parts| - 1 {
      SetIsThroughObjects(Child(obj, parts[i]), parts, i + 1, value);
    }
  }

  // ---------------------------------------------------------------- validation

  datatype ConfigError =
    | NotAnObject
    | NoModels
    | BadModel(tier: string, field: string)
    | BadField(name: string)
    | Unparsable(isGlobal: bool)
    | BadPort

  predicate IsInteger(v: Option<Json>) {
    v.Some? && v.value.Num? && v.value.n == v.value.n.Floor as real
  }

  predicate IsName(v: Option<Json>) {
    v.Some? && v.value.Str? && v.value.s != ""
  }

  predicate IsStringArray(v: Option<Json>) {
    v.Some? && v.value.Arr? && forall i :: 0 <= i < |v.value.items| ==> v.value.items[i].Str?
  }

  function ModelOf(provider: Json, model: Json): Json {
    Obj(map["provider" := provider, "model" := model])
  }

  /** Only provider and model survive. */
  function ValidateModel(tier: string, value: Option<Json>): Result<Json, ConfigError> {
    if value.None? || !value.value.Obj? then Err(BadModel(tier, ""))
    else if !IsName(At(value.value, "provider")) then Err(BadModel(tier, "provider"))
    else if !IsName(At(value.value, "model")) then Err(BadModel(tier, "model"))
    else Ok(ModelOf(value.value.fields["provider"], value.value.fields["model"]))
  }

  /** The four models, normalized; the first bad one is reported. */
  function ValidateModels(models: Json): Result<Json, ConfigError> {
    var tier1, tier2 := ValidateModel("tier1", At(models, "tier1")), ValidateModel("tier2", At(models, "tier2"));
    var tier3, fallback := ValidateModel("tier3", At(models, "tier3")), ValidateModel("fallback", At(models, "fallback"));
    if tier1.Err? then tier1
    else if tier2.Err? then tier2
    else if tier3.Err? then tier3
    else if fallback.Err? then fallback
    else Ok(Obj(map["tier1" := tier1.value, "tier2" := tier2.value, "tier3" := tier3.value, "fallback" := fallback.value]))
  }

  /** The first field of `v` that breaks its rule. */
  function BadFieldOf(v: Json): Option<string> {
    if !(IsInteger(At(v, "daemon_port")) && 0.0 < At(v, "daemon_port").value.n <= 65535.0) then Some("daemon_port")
    else if !IsName(At(v, "daemon_host")) then Some("daemon_host")
    else if !(IsInteger(At(v, "trace_sample_rate")) && At(v, "trace_sample_rate").value.n >= 1.0) then Some("trace_sample_rate")
    else if !IsStringArray(At(v, "sync_peers")) then Some("sync_peers")
    else if !IsStringArray(At(v, "parse_languages")) then Some("parse_languages")
    else if !(IsInteger(At(v, "parse_jobs")) && At(v, "parse_jobs").value.n >= 0.0) then Some("parse_jobs")
    else if !(IsInteger(At(v, "ingest_timeout_seconds")) && At(v, "ingest_timeout_seconds").value.n >= 1.0)
    then Some("ingest_timeout_seconds")
    else None
  }

  predicate IsTier(k: string) {
    k == "tier1" || k == "tier2" || k == "tier3" || k == "fallback"
  }

  predicate IsModelField(f: string) {
    f == "provider" || f == "model"
  }

  /** What the proofs need of the defaults: models with no other parts than a valid config keeps. */
  ghost predicate IsDefault(d: Json) {
    && d.Obj? && "models" in d.fields && d.fields["models"].Obj?
    && forall k :: k in d.fields["models"].fields ==>
         IsTier(k) && d.fields["models"].fields[k].Obj?
         && forall f :: f in d.fields["models"].fields[k].fields ==> IsModelField(f)
  }

  /** The checks on a merged config. */
  function Check(merged: Json): Result<Json, ConfigError>
    requires merged.Obj? && "models" in merged.fields
  {
    var models := merged.fields["models"];
    if models.Null? then Err(NoModels)
    else
      var tiers := ValidateModels(models);
      if tiers.Err? then Err(tiers.error)
      else
        var v := Obj(merged.fields["models" := tiers.value]);
        if BadFieldOf(v).Some? then Err(BadField(BadFieldOf(v).value)) else Ok(v)
  }

  function Validate(d: Json, raw: Json): Result<Json, ConfigError>
    requires d.Obj? && "models" in d.fields
  {
    if !raw.Obj? then Err(NotAnObject) else Check(Merge(d, raw))
  }

  lemma ModelsAgain(models: Json)
    requires ValidateModels(models).Ok?
    ensures var norm := ValidateModels(models).value;
      && norm.Obj? && ValidateModels(norm) == Ok(norm)
      && (forall k :: IsTier(k) <==> k in norm.fields)
      && (forall k :: IsTier(k) ==> norm.fields[k].Obj?)
      && (forall k, f :: IsTier(k) && IsModelField(f) ==> f in norm.fields[k].fields && norm.fields[k].fields[f].Str?)
  {
    var norm := ValidateModels(models).value;
    assert At(norm, "tier1") == Some(ValidateModel("tier1", At(models, "tier1")).value);
    assert At(norm, "tier2") == Some(ValidateModel("tier2", At(models, "tier2")).value);
    assert At(norm, "tier3") == Some(ValidateModel("tier3", At(models, "tier3")).value);
    assert At(norm, "fallback") == Some(ValidateModel("fallback", At(models, "fallback")).value);
    assert ValidateModels(norm).value.fields == norm.fields;
  }

  /** Normalized models absorb the default ones. */
  lemma NormCovers(d: Json, norm: Json)
    requires IsDefault(d) && norm.Obj? && forall k :: IsTier(k) ==> k in norm.fields && norm.fields[k].Obj?
    requires forall k, f :: IsTier(k) && IsModelField(f) ==> f in norm.fields[k].fields && norm.fields[k].fields[f].Str?
    ensures Merge(d.fields["models"], norm) == norm
  {
    CoversMeans(norm, d.fields["models"]);
  }

  lemma AbsorbsAt(d: Json, m: Json, k: string)
    requires d.Obj? && m.Obj? && Merge(d, m) == m
    ensures Combine(At(d, k), At(m, k)) == At(m, k)
  {
    MergeAt(d, m, k);
  }

  lemma OthersUnchanged(merged: Json, norm: Json, k: string)
    requires merged.Obj? && k != "models"
    ensures At(Obj(merged.fields["models" := norm]), k) == At(merged, k)
  {
  }

  lemma StaysAt(d: Json, v: Json, k: string)
    requires d.Obj? && v.Obj? && Combine(At(d, k), At(v, k)) == At(v, k)
    ensures At(Merge(d, v), k) == At(v, k)
  {
    MergeAt(d, v, k);
  }

  /** A merged config with its models normalized still contains the defaults. */
  lemma NormalizedAbsorbsAt(d: Json, models: Json, merged: Json, norm: Json, k: string)
    requires d.Obj? && merged.Obj? && norm.Obj? && At(d, "models") == Some(models)
    requires Merge(models, norm) == norm && Merge(d, merged) == merged
    ensures At(Merge(d, Obj(merged.fields["models" := norm])), k) == At(Obj(merged.fields["models" := norm]), k)
  {
    if k != "models" {
      AbsorbsAt(d, merged, k);
      OthersUnchanged(merged, norm, k);
    }
    StaysAt(d, Obj(merged.fields["models" := norm]), k);
  }

  lemma NormalizedAbsorbs(d: Json, raw: Json, norm: Json)
    requires d.Obj? && raw.Obj? && norm.Obj? && "models" in d.fields && d.fields["models"].Obj?
    requires Merge(d.fields["models"], norm) == norm
    ensures var v := Obj(Merge(d, raw).fields["models" := norm]); Merge(d, v) == v
  {
    var merged := Merge(d, raw);
    var v := Obj(merged.fields["models" := norm]);
    MergeAbsorbs(d, raw);
    forall k
      ensures At(Merge(d, v), k) == At(v, k)
    {
      NormalizedAbsorbsAt(d, d.fields["models"], merged, norm, k);
    }
    SameFields(Merge(d, v), v);
  }

  lemma CheckAgain(v: Json, norm: Json)
    requires At(v, "models") == Some(norm) && norm.Obj? && ValidateModels(norm) == Ok(norm) && BadFieldOf(v) == None
    ensures Check(v) == Ok(v)
  {
    assert v.fields["models" := norm] == v.fields;
  }

  lemma CheckedModels(merged: Json)
    requires merged.Obj? && "models" in merged.fields && Check(merged).Ok?
    ensures ValidateModels(merged.fields["models"]).Ok? && BadFieldOf(Check(merged).value) == None
    ensures Check(merged).value == Obj(merged.fields["models" := ValidateModels(merged.fields["models"]).value])
  {
  }

  // ---------------------------------------------------------------- what is accepted

  function Whole(n: int): Option<Json> {
    Some(Num(n as real))
  }

  /** A whole number of at least `lo` and, if `hi` is given, at most that. */
  ghost predicate IsWhole(v: Option<Json>, lo: int, hi: Option<int>) {
    exists n :: v == Whole(n) && lo <= n && (hi.Some? ==> n <= hi.value)
  }

  ghost predicate IsText(v: Option<Json>) {
    exists s :: s != "" && v == Some(Str(s))
  }

  ghost predicate AreTexts(items: seq<Json>) {
    forall i :: 0 <= i < |items| ==> items[i].Str?
  }

  ghost predicate IsTexts(v: Option<Json>) {
    exists items :: v == Some(Arr(items)) && AreTexts(items)
  }

  /** The rules of the checked fields, in the order in which they are checked. */
  ghost predicate MeetsRule(v: Json, rule: nat) {
    match rule
    case 0 => IsWhole(At(v, "daemon_port"), 1, Some(65535))
    case 1 => IsText(At(v, "daemon_host"))
    case 2 => IsWhole(At(v, "trace_sample_rate"), 1, None)
    case 3 => IsTexts(At(v, "sync_peers"))
    case 4 => IsTexts(At(v, "parse_languages"))
    case 5 => IsWhole(At(v, "parse_jobs"), 0, None)
    case 6 => IsWhole(At(v, "ingest_timeout_seconds"), 1, None)
    case _ => true
  }

  const CHECKED := ["daemon_port", "daemon_host", "trace_sample_rate", "sync_peers", "parse_languages", "parse_jobs",
                    "ingest_timeout_seconds"]

  lemma WholeMeans(v: Option<Json>, lo: int, hi: Option<int>)
    ensures IsWhole(v, lo, hi) <==>
      IsInteger(v) && v.value.n >= lo as real && (hi.Some? ==> v.value.n <= hi.value as real)
  {
    if IsInteger(v) && v.value.n >= lo as real && (hi.Some? ==> v.value.n <= hi.value as real) {
      assert v == Whole(v.value.n.Floor);
    }
  }

  lemma TextMeans(v: Option<Json>)
    ensures IsText(v) <==> IsName(v)
  {
    if IsName(v) {
      assert v == Some(Str(v.value.s));
    }
  }

  lemma TextsMean(v: Option<Json>)
    ensures IsTexts(v) <==> IsStringArray(v)
  {
    if IsStringArray(v) {
      assert v == Some(Arr(v.value.items)) && AreTexts(v.value.items);
    }
  }

  /** The field that is reported is the first whose rule is broken. */
  lemma FirstIsReported(v: Json)
    ensures BadFieldOf(v).None? <==> forall i: nat :: MeetsRule(v, i)
    ensures BadFieldOf(v).Some? ==> exists i: nat :: i < |CHECKED| && BadFieldOf(v) == Some(CHECKED[i])
                                                    && !MeetsRule(v, i) && forall j: nat :: j < i ==> MeetsRule(v, j)
  {
    WholeMeans(At(v, "daemon_port"), 1, Some(65535));
    WholeMeans(At(v, "trace_sample_rate"), 1, None);
    WholeMeans(At(v, "parse_jobs"), 0, None);
    WholeMeans(At(v, "ingest_timeout_seconds"), 1, None);
    TextMeans(At(v, "daemon_host"));
    TextsMean(At(v, "sync_peers"));
    TextsMean(At(v, "parse_languages"));
    PortIsPositive(At(v, "daemon_port"));
    if BadFieldOf(v).Some? {
      var i :=
        if !MeetsRule(v, 0) then 0 else if !MeetsRule(v, 1) then 1 else if !MeetsRule(v, 2) then 2
        else if !MeetsRule(v, 3) then 3 else if !MeetsRule(v, 4) then 4 else if !MeetsRule(v, 5) then 5 else 6;
      assert !MeetsRule(v, i) && BadFieldOf(v) == Some(CHECKED[i]);
    }
  }

  lemma PortIsPositive(v: Option<Json>)
    ensures IsInteger(v) ==> (0.0 < v.value.n <==> v.value.n >= 1.0)
  {
    if IsInteger(v) {
      assert v.value.n == v.value.n.Floor as real;
    }
  }

  /** A tier is an object with a provider and a model name. */
  ghost predicate IsModel(v: Option<Json>) {
    v.Some? && IsText(At(v.value, "provider")) && IsText(At(v.value, "model"))
  }

  lemma ModelsAccepted(models: Json)
    ensures ValidateModels(models).Ok? <==> forall k :: IsTier(k) ==> IsModel(At(models, k))
  {
    ReportedModel("tier1", At(models, "tier1"));
    ReportedModel("tier2", At(models, "tier2"));
    ReportedModel("tier3", At(models, "tier3"));
    ReportedModel("fallback", At(models, "fallback"));
    assert IsTier("tier1") && IsTier("tier2") && IsTier("tier3") && IsTier("fallback");
  }

  const TIERS := ["tier1", "tier2", "tier3", "fallback"]

  /** The model that is reported is the first that is none, with its first missing name, or no name if it is no object. */
  lemma FirstModelIsReported(models: Json)
    ensures ValidateModels(models).Err? ==> exists i: nat ::
      && i < |TIERS| && (forall j: nat :: j < i ==> IsModel(At(models, TIERS[j]))) && !IsModel(At(models, TIERS[i]))
      && ValidateModels(models) == Err(BadModel(TIERS[i], MissingName(At(models, TIERS[i]))))
  {
    ReportedModel("tier1", At(models, "tier1"));
    ReportedModel("tier2", At(models, "tier2"));
    ReportedModel("tier3", At(models, "tier3"));
    ReportedModel("fallback", At(models, "fallback"));
    if ValidateModels(models).Err? {
      var i := if !IsModel(At(models, TIERS[0])) then 0 else if !IsModel(At(models, TIERS[1])) then 1
               else if !IsModel(At(models, TIERS[2])) then 2 else 3;
      assert ValidateModels(models) == Err(BadModel(TIERS[i], MissingName(At(models, TIERS[i]))));
    }
  }

  ghost function MissingName(v: Option<Json>): string {
    if v.None? || !v.value.Obj? then "" else if !IsText(At(v.value, "provider")) then "provider" else "model"
  }

  lemma ReportedModel(tier: string, v: Option<Json>)
    ensures ValidateModel(tier, v).Ok? <==> IsModel(v)
    ensures ValidateModel(tier, v).Err? ==> ValidateModel(tier, v) == Err(BadModel(tier, MissingName(v)))
  {
    if v.Some? {
      TextMeans(At(v.value, "provider"));
      TextMeans(At(v.value, "model"));
    }
  }

  lemma CheckAccepts(merged: Json)
    requires merged.Obj? && "models" in merged.fields
    ensures Check(merged).Ok? <==> ValidateModels(merged.fields["models"]).Ok? && BadFieldOf(merged).None?
  {
    if ValidateModels(merged.fields["models"]).Ok? {
      ModelsAreNotChecked(merged, ValidateModels(merged.fields["models"]).value);
    }
  }

  /** A config is accepted if and only if it is an object and, over the defaults, all four tiers are models
      and every checked field meets its rule. */
  lemma AcceptsIff(d: Json, raw: Json)
    requires d.Obj? && "models" in d.fields
    ensures Validate(d, raw).Ok? <==>
      && raw.Obj?
      && (forall k :: IsTier(k) ==> IsModel(At(Merge(d, raw).fields["models"], k)))
      && (forall i: nat :: MeetsRule(Merge(d, raw), i))
  {
    if raw.Obj? {
      CheckAccepts(Merge(d, raw));
      ModelsAccepted(Merge(d, raw).fields["models"]);
      FirstIsReported(Merge(d, raw));
    }
  }

  /** A config that was accepted is accepted again, unchanged. */
  lemma ValidateIsIdempotent(d: Json, raw: Json)
    requires IsDefault(d) && Validate(d, raw).Ok?
    ensures Validate(d, Validate(d, raw).value) == Validate(d, raw)
  {
    var merged, v := Merge(d, raw), Validate(d, raw).value;
    CheckedModels(merged);
    var norm := ValidateModels(merged.fields["models"]).value;
    ModelsAgain(merged.fields["models"]);
    NormCovers(d, norm);
    NormalizedAbsorbs(d, raw, norm);
    CheckAgain(v, norm);
  }

  // ---------------------------------------------------------------- layers

  const DEFAULT_MODELS := Obj(map[
    "tier1" := ModelOf(Str("anthropic"), Str("claude-opus-4-7")),
    "tier2" := ModelOf(Str("local"), Str("gemma3:4b")),
    "tier3" := ModelOf(Str("local"), Str("gemma3:1b")),
    "fallback" := ModelOf(Str("groq"), Str("llama-3.3-70b"))])

  const DEFAULT_CONFIG := Obj(map[
    "models" := DEFAULT_MODELS,
    "trace_sample_rate" := Num(100.0),
    "sync_peers" := Arr([]),
    "daemon_port" := Num(7777.0),
    "daemon_host" := Str("127.0.0.1"),
    "auto_sync_interval_minutes" := Num(30.0),
    "max_node_summary_tokens" := Num(500.0),
    "parse_languages" := Arr([Str("python"), Str("typescript"), Str("tsx"), Str("javascript"), Str("rust"), Str("go"), Str("astro")]),
    "parse_jobs" := Num(0.0),
    "ingest_timeout_seconds" := Num(300.0),
    "conflict" := Obj(map["oracle" := Str("contract-diff")]),
    "index" := Obj(map["perBranch" := Bool(true), "maxBranches" := Num(8.0), "includeVendored" := Bool(false), "includeFixtures" := Bool(false)])])

  lemma DefaultModelsArePlain()
    ensures forall k :: k in DEFAULT_MODELS.fields ==>
      IsTier(k) && DEFAULT_MODELS.fields[k].Obj?
      && forall f :: f in DEFAULT_MODELS.fields[k].fields ==> IsModelField(f)
  {
  }

  lemma DefaultIsDefault()
    ensures IsDefault(DEFAULT_CONFIG)
  {
    assert DEFAULT_CONFIG.fields["models"] == DEFAULT_MODELS;
    DefaultModelsArePlain();
  }

  function Over(below: Json, layer: Option<Json>): Json {
    if layer.Some? then Merge(below, layer.value) else below
  }

  /** The defaults, then the global file, the repository's file and the environment. */
  function Layers(d: Json, global: Option<Json>, local: Option<Json>, env: Json): Json {
    Merge(Over(Over(d, global), local), env)
  }

  datatype File = NoFile | BadJson | Holds(json: Json)

  /** A file that holds `null` is as good as none. */
  function LayerOf(f: File): Option<Json> {
    if f.Holds? && !f.json.Null? then Some(f.json) else None
  }

  /** The two variables; the port is `Some(None)` when it is not an integer. */
  datatype Environment = Environment(port: Option<Option<int>>, host: Option<string>)

  function EnvLayer(env: Environment): Json {
    var port := if env.port.Some? && env.port.value.Some? then map["daemon_port" := Num(env.port.value.value as real)] else map[];
    Obj(port + if env.host.Some? && env.host.value != "" then map["daemon_host" := Str(env.host.value)] else map[])
  }

  /** A broken global file is reported before a broken local one, and both before the port. */
  method LoadConfig(d: Json, global: File, local: File, env: Environment) returns (r: Result<Json, ConfigError>)
    requires d.Obj? && "models" in d.fields
    ensures r == if global.BadJson? then Err(Unparsable(true))
                 else if local.BadJson? then Err(Unparsable(false))
                 else if env.port == Some(None) then Err(BadPort)
                 else Validate(d, Layers(d, LayerOf(global), LayerOf(local), EnvLayer(env)))
  {
    var merged := d;
    if global.BadJson? {
      return Err(Unparsable(true));
    }
    if global.Holds? && !global.json.Null? {
      merged := DeepMerge(merged, global.json);
    }
    if local.BadJson? {
      return Err(Unparsable(false));
    }
    if local.Holds? && !local.json.Null? {
      merged := DeepMerge(merged, local.json);
    }
    var overrides := map[];
    if env.port.Some? {
      if env.port.value.None? {
        return Err(BadPort);
      }
      overrides := overrides["daemon_port" := Num(env.port.value.value as real)];
    }
    if env.host.Some? && env.host.value != "" {
      overrides := overrides["daemon_host" := Str(env.host.value)];
    }
    assert Obj(overrides) == EnvLayer(env);
    merged := DeepMerge(merged, Obj(overrides));
    r := Validate(d, merged);
  }

  /** `o` has a plain value at `parts[i..]`. */
  predicate HasPlain(o: Json, parts: seq<string>, i: nat)
    requires i <= |parts|
  {
    i < |parts| && ThroughObjects(o, parts, i) && Get(o, parts, i).Some? && !Get(o, parts, i).value.Obj?
  }

  /** `o` says nothing about `parts[i..]`: some key on the way is missing. */
  predicate IsSilent(o: Json, parts: seq<string>, i: nat)
    requires i <= |parts|
    decreases |parts| - i
  {
    i < |parts| && o.Obj? && (parts[i] in o.fields ==> IsSilent(o.fields[parts[i]], parts, i + 1))
  }

  /** A layer that is absent or not an object is ignored. */
  predicate Skips(layer: Option<Json>, parts: seq<string>) {
    layer.None? || !layer.value.Obj? || IsSilent(layer.value, parts, 0)
  }

  lemma {:induction false} SilentLayerKeeps(a: Json, b: Json, parts: seq<string>, i: nat)
    requires i <= |parts| && HasPlain(a, parts, i) && IsSilent(b, parts, i)
    ensures HasPlain(Merge(a, b), parts, i) && Get(Merge(a, b), parts, i) == Get(a, parts, i)
    decreases |parts| - i
  {
    MergeAt(a, b, parts[i]);
    if parts[i] in b.fields {
      SilentLayerKeeps(a.fields[parts[i]], b.fields[parts[i]], parts, i + 1);
    }
  }

  lemma PlainLayerWins(a: Json, b: Json, parts: seq<string>)
    requires a.Obj? && HasPlain(b, parts, 0)
    ensures HasPlain(Merge(a, b), parts, 0) && Get(Merge(a, b), parts, 0) == Get(b, parts, 0)
  {
    LaterLayerWins(a, b, parts, 0);
  }

  lemma SkippedLayerKeeps(a: Json, layer: Option<Json>, parts: seq<string>)
    requires HasPlain(a, parts, 0) && Skips(layer, parts)
    ensures HasPlain(Over(a, layer), parts, 0) && Get(Over(a, layer), parts, 0) == Get(a, parts, 0)
  {
    if layer.Some? && layer.value.Obj? {
      SilentLayerKeeps(a, layer.value, parts, 0);
    }
  }

  /** The parts of the models that validation keeps. */
  predicate IsKept(parts: seq<string>) {
    parts != [] && (parts[0] != "models" || (|parts| == 3 && IsTier(parts[1]) && IsModelField(parts[2])))
  }

  lemma ModelFieldsKept(m: Json, parts: seq<string>)
    requires |parts| >= 3 && HasPlain(m, parts, 2) && IsName(At(m, "provider")) && IsName(At(m, "model"))
    ensures Get(ModelOf(m.fields["provider"], m.fields["model"]), parts, 2)
         == if |parts| == 3 && IsModelField(parts[2]) then Get(m, parts, 2) else None
  {
    var kept := ModelOf(m.fields["provider"], m.fields["model"]);
    if IsModelField(parts[2]) {
      assert At(kept, parts[2]) == At(m, parts[2]);
    }
  }

  lemma TierKept(models: Json, p: string)
    requires ValidateModels(models).Ok?
    ensures IsTier(p) ==> At(models, p).Some? && var m := At(models, p).value;
      m.Obj? && IsName(At(m, "provider")) && IsName(At(m, "model"))
      && At(ValidateModels(models).value, p) == Some(ModelOf(m.fields["provider"], m.fields["model"]))
    ensures !IsTier(p) ==> At(ValidateModels(models).value, p) == None
  {
    if IsTier(p) {
      assert ValidateModel(p, At(models, p)).Ok?;
    }
  }

  lemma ModelPartsKept(models: Json, norm: Json, parts: seq<string>)
    requires |parts| >= 2 && ValidateModels(models) == Ok(norm) && HasPlain(models, parts, 1)
    ensures Get(norm, parts, 1)
         == if |parts| == 3 && IsTier(parts[1]) && IsModelField(parts[2]) then Get(models, parts, 1) else None
  {
    TierKept(models, parts[1]);
    PartsOfTier(models, norm, parts);
  }

  lemma PartsOfTier(models: Json, norm: Json, parts: seq<string>)
    requires |parts| >= 2 && models.Obj? && norm.Obj? && HasPlain(models, parts, 1)
    requires IsTier(parts[1]) ==> At(models, parts[1]).Some? && var m := At(models, parts[1]).value;
      m.Obj? && IsName(At(m, "provider")) && IsName(At(m, "model"))
      && At(norm, parts[1]) == Some(ModelOf(m.fields["provider"], m.fields["model"]))
    requires !IsTier(parts[1]) ==> At(norm, parts[1]) == None
    ensures Get(norm, parts, 1)
         == if |parts| == 3 && IsTier(parts[1]) && IsModelField(parts[2]) then Get(models, parts, 1) else None
  {
    if IsTier(parts[1]) {
      assert Get(models, parts, 1) == Get(models.fields[parts[1]], parts, 2);
      ModelFieldsKept(models.fields[parts[1]], parts);
    }
  }

  lemma ModelsPartWritten(merged: Json, v: Json, parts: seq<string>)
    requires HasPlain(merged, parts, 0) && parts[0] == "models"
    requires ValidateModels(merged.fields["models"]).Ok? && At(v, "models") == Some(ValidateModels(merged.fields["models"]).value)
    ensures Get(v, parts, 0) == if IsKept(parts) then Get(merged, parts, 0) else None
  {
    var models := merged.fields["models"];
    var norm := v.fields["models"];
    assert Get(merged, parts, 0) == Get(models, parts, 1) && Get(v, parts, 0) == Get(norm, parts, 1);
    assert models.Obj?;
    ModelPartsKept(models, norm, parts);
  }

  /** Validation keeps every plain value of the layers, except for the parts of the models that it drops. */
  lemma ValidateKeepsPlain(d: Json, raw: Json, parts: seq<string>)
    requires d.Obj? && "models" in d.fields && HasPlain(raw, parts, 0) && Validate(d, raw).Ok?
    ensures Get(Validate(d, raw).value, parts, 0) == if IsKept(parts) then Get(raw, parts, 0) else None
  {
    PlainLayerWins(d, raw, parts);
    var v := Validate(d, raw).value;
    CheckedModels(Merge(d, raw));
    if parts[0] != "models" {
      assert At(v, parts[0]) == At(Merge(d, raw), parts[0]);
    } else {
      ModelsPartWritten(Merge(d, raw), v, parts);
    }
  }

  /** The value in force below an `env` that is silent. */
  lemma SilentThenValid(d: Json, b: Json, env: Json, parts: seq<string>)
    requires d.Obj? && "models" in d.fields && HasPlain(b, parts, 0) && IsSilent(env, parts, 0)
    requires Validate(d, Merge(b, env)).Ok?
    ensures Get(Validate(d, Merge(b, env)).value, parts, 0) == if IsKept(parts) then Get(b, parts, 0) else None
  {
    SilentLayerKeeps(b, env, parts, 0);
    ValidateKeepsPlain(d, Merge(b, env), parts);
  }

  /** The environment overrides every file. */
  lemma EnvironmentWins(d: Json, global: Option<Json>, local: Option<Json>, env: Json, parts: seq<string>)
    requires d.Obj? && "models" in d.fields && HasPlain(env, parts, 0)
    requires Validate(d, Layers(d, global, local, env)).Ok?
    ensures Get(Validate(d, Layers(d, global, local, env)).value, parts, 0)
         == if IsKept(parts) then Get(env, parts, 0) else None
  {
    PlainLayerWins(Over(Over(d, global), local), env, parts);
    ValidateKeepsPlain(d, Layers(d, global, local, env), parts);
  }

  /** In an accepted config the two variables are in force: the port, and a host that is not blank. */
  lemma VariablesWin(d: Json, global: Option<Json>, local: Option<Json>, env: Environment)
    requires d.Obj? && "models" in d.fields && Validate(d, Layers(d, global, local, EnvLayer(env))).Ok?
    ensures var v := Validate(d, Layers(d, global, local, EnvLayer(env))).value;
      && (forall n :: env.port == Some(Some(n)) ==> Get(v, ["daemon_port"], 0) == Some(Num(n as real)))
      && (forall h :: env.host == Some(h) && h != "" ==> Get(v, ["daemon_host"], 0) == Some(Str(h)))
  {
    var layer := EnvLayer(env);
    if env.port.Some? && env.port.value.Some? {
      PlainAtKey(layer, "daemon_port");
      EnvironmentWins(d, global, local, layer, ["daemon_port"]);
    }
    if env.host.Some? && env.host.value != "" {
      PlainAtKey(layer, "daemon_host");
      EnvironmentWins(d, global, local, layer, ["daemon_host"]);
    }
  }

  /** What is not set in the environment is left to the files. */
  lemma UnsetIsSilent(env: Environment, parts: seq<string>)
    requires parts != []
    ensures IsSilent(EnvLayer(env), parts, 0) || HasPlain(EnvLayer(env), parts[..1], 0)
    ensures HasPlain(EnvLayer(env), parts[..1], 0) <==>
      || (parts[0] == "daemon_port" && env.port.Some? && env.port.value.Some?)
      || (parts[0] == "daemon_host" && env.host.Some? && env.host.value != "")
  {
    var layer := EnvLayer(env);
    if parts[0] in layer.fields {
      PlainAtKey(layer, parts[0]);
      assert parts[..1] == [parts[0]];
    }
  }

  lemma PlainAtKey(o: Json, k: string)
    requires o.Obj? && k in o.fields && !o.fields[k].Obj?
    ensures HasPlain(o, [k], 0) && Get(o, [k], 0) == Some(o.fields[k])
  {
    assert Get(o, [k], 0) == Get(o.fields[k], [k], 1);
  }

  /** The repository's file overrides the global one. */
  lemma LocalWins(d: Json, global: Option<Json>, local: Option<Json>, env: Json, parts: seq<string>)
    requires d.Obj? && "models" in d.fields && local.Some? && HasPlain(local.value, parts, 0)
    requires IsSilent(env, parts, 0) && Validate(d, Layers(d, global, local, env)).Ok?
    ensures Get(Validate(d, Layers(d, global, local, env)).value, parts, 0)
         == if IsKept(parts) then Get(local.value, parts, 0) else None
  {
    PlainLayerWins(Over(d, global), local.value, parts);
    SilentThenValid(d, Over(Over(d, global), local), env, parts);
  }

  /** The global file counts where the repository's is silent, and overrides the defaults. */
  lemma GlobalWins(d: Json, global: Option<Json>, local: Option<Json>, env: Json, parts: seq<string>)
    requires d.Obj? && "models" in d.fields && global.Some? && HasPlain(global.value, parts, 0)
    requires IsSilent(env, parts, 0) && Skips(local, parts) && Validate(d, Layers(d, global, local, env)).Ok?
    ensures Get(Validate(d, Layers(d, global, local, env)).value, parts, 0)
         == if IsKept(parts) then Get(global.value, parts, 0) else None
  {
    PlainLayerWins(d, global.value, parts);
    SkippedLayerKeeps(Over(d, global), local, parts);
    SilentThenValid(d, Over(Over(d, global), local), env, parts);
  }

  /** A default stands where every layer is silent. */
  lemma DefaultStands(d: Json, global: Option<Json>, local: Option<Json>, env: Json, parts: seq<string>)
    requires d.Obj? && "models" in d.fields && HasPlain(d, parts, 0)
    requires IsSilent(env, parts, 0) && Skips(local, parts) && Skips(global, parts)
    requires Validate(d, Layers(d, global, local, env)).Ok?
    ensures Get(Validate(d, Layers(d, global, local, env)).value, parts, 0)
         == if IsKept(parts) then Get(d, parts, 0) else None
  {
    SkippedLayerKeeps(d, global, parts);
    SkippedLayerKeeps(Over(d, global), local, parts);
    SilentThenValid(d, Over(Over(d, global), local), env, parts);
  }

  // ---------------------------------------------------------------- setting one value

  /** What `d` has at `parts[i..]`, through objects only. */
  function Below(d: Json, parts: seq<string>, i: nat): Option<Json>
    requires i <= |parts|
    decreases |parts| - i
  {
    if i == |parts| then Some(d)
    else
      var next := At(d, parts[i]);
      if next.None? then None else Below(next.value, parts, i + 1)
  }

  /** What is set is merged with the default at its own path. */
  lemma {:induction false} MergeAfterSet(d: Json, obj: Json, parts: seq<string>, i: nat, value: Json)
    requires obj.Obj? && i < |parts|
    ensures Get(Merge(d, Set(obj, parts, i, value)), parts, i) == Combine(Below(d, parts, i), Some(value))
    decreases |parts| - i
  {
    var p, s := parts[i], Set(obj, parts, i, value);
    if At(d, p).None? {
      GetAfterSet(obj, parts, i, value);
    } else if i < |parts| - 1 {
      MergeAfterSet(d.fields[p], Child(obj, p), parts, i + 1, value);
    }
    if d.Obj? {
      MergeAt(d, s, p);
    }
  }

  ghost predicate HasModelShape(value: Json) {
    value.Obj? && forall f :: f in value.fields <==> IsModelField(f)
  }

  ghost predicate HasModelsShape(value: Json) {
    && value.Obj? && (forall k :: k in value.fields <==> IsTier(k))
    && forall k :: k in value.fields ==> HasModelShape(value.fields[k])
  }

  /** Outside the models an object must have every key that the default object at its path has;
      inside, the value must have, and be at, what validation keeps. */
  ghost predicate IsWritten(d: Json, parts: seq<string>, value: Json)
    requires parts != []
  {
    if parts[0] != "models" then
      var default := Below(d, parts, 0);
      value.Obj? && default.Some? && default.value.Obj? ==> Covers(value, default.value)
    else if |parts| == 1 then HasModelsShape(value)
    else if |parts| == 2 then IsTier(parts[1]) && HasModelShape(value)
    else |parts| == 3 && IsTier(parts[1]) && IsModelField(parts[2])
  }

  lemma WrittenOutside(d: Json, existing: Json, parts: seq<string>, value: Json)
    requires IsDefault(d) && existing.Obj? && parts != [] && parts[0] != "models"
    requires Validate(d, Set(existing, parts, 0, value)).Ok?
    ensures Get(Validate(d, Set(existing, parts, 0, value)).value, parts, 0) == Some(value) <==> IsWritten(d, parts, value)
  {
    var s, default := Set(existing, parts, 0, value), Below(d, parts, 0);
    MergeAfterSet(d, existing, parts, 0, value);
    assert At(Validate(d, s).value, parts[0]) == At(Merge(d, s), parts[0]);
    if value.Obj? && default.Some? && default.value.Obj? {
      CoversMeans(value, default.value);
    }
  }

  /** A tier that was merged over its default is the value itself if the value has just the two fields. */
  lemma TierWritten(default: Option<Json>, value: Json, m: Json)
    requires Combine(default, Some(value)) == Some(m) && m.Obj? && IsName(At(m, "provider")) && IsName(At(m, "model"))
    requires default.Some? && default.value.Obj? ==> forall f :: f in default.value.fields ==> IsModelField(f)
    ensures ModelOf(m.fields["provider"], m.fields["model"]) == value <==> HasModelShape(value)
  {
    var kept := ModelOf(m.fields["provider"], m.fields["model"]);
    if HasModelShape(value) {
      if default.Some? && default.value.Obj? {
        MergeAt(default.value, value, "provider");
        MergeAt(default.value, value, "model");
      }
      assert kept.fields == value.fields;
    }
  }

  /** The default of a tier, or nothing, has no other fields than the two. */
  lemma TierDefault(d: Json, k: string)
    requires IsDefault(d)
    ensures var default := At(d.fields["models"], k);
      default.Some? && default.value.Obj? ==> forall f :: f in default.value.fields ==> IsModelField(f)
  {
  }

  lemma ModelsWritten(d: Json, value: Json, models: Json)
    requires IsDefault(d) && Combine(Some(d.fields["models"]), Some(value)) == Some(models) && ValidateModels(models).Ok?
    ensures ValidateModels(models).value == value <==> HasModelsShape(value)
  {
    var norm := ValidateModels(models).value;
    assert value.Obj?;
    forall k
      ensures k in norm.fields <==> IsTier(k)
      ensures IsTier(k) ==> HasModelShape(norm.fields[k])
      ensures HasModelsShape(value) ==> At(norm, k) == At(value, k)
    {
      TierKept(models, k);
      MergeAt(d.fields["models"], value, k);
      if IsTier(k) && HasModelsShape(value) {
        TierDefault(d, k);
        TierWritten(At(d.fields["models"], k), value.fields[k], models.fields[k]);
      }
    }
    if HasModelsShape(value) {
      SameFields(norm, value);
    }
  }

  /** A value inside the models: `models` holds it merged with its default. */
  lemma ModelPartWritten(d: Json, parts: seq<string>, value: Json, models: Json)
    requires IsDefault(d) && |parts| >= 2 && parts[0] == "models" && ValidateModels(models).Ok?
    requires Get(models, parts, 1) == Combine(Below(d.fields["models"], parts, 1), Some(value))
    ensures Get(ValidateModels(models).value, parts, 1) == Some(value) <==> IsWritten(d, parts, value)
  {
    var k, norm := parts[1], ValidateModels(models).value;
    TierKept(models, k);
    if IsTier(k) {
      var m := models.fields[k];
      assert Get(models, parts, 1) == Get(m, parts, 2);
      assert Get(norm, parts, 1) == Get(norm.fields[k], parts, 2);
      if |parts| == 2 {
        TierDefault(d, k);
        TierWritten(At(d.fields["models"], k), value, m);
      } else {
        FieldWritten(m, parts, value, Below(d.fields["models"], parts, 1));
      }
    }
  }

  lemma FieldWritten(m: Json, parts: seq<string>, value: Json, default: Option<Json>)
    requires |parts| >= 3 && m.Obj? && IsName(At(m, "provider")) && IsName(At(m, "model"))
    requires Get(m, parts, 2) == Combine(default, Some(value))
    ensures Get(ModelOf(m.fields["provider"], m.fields["model"]), parts, 2) == Some(value)
       <==> |parts| == 3 && IsModelField(parts[2])
  {
    var kept := ModelOf(m.fields["provider"], m.fields["model"]);
    if IsModelField(parts[2]) {
      assert At(kept, parts[2]) == At(m, parts[2]) && kept.fields[parts[2]].Str?;
      assert Get(kept, parts, 2) == Get(kept.fields[parts[2]], parts, 3);
      assert Get(m, parts, 2) == Get(m.fields[parts[2]], parts, 3);
    }
  }

  /** What is found inside the models of an accepted config. */
  lemma InsideModels(merged: Json, parts: seq<string>)
    requires merged.Obj? && "models" in merged.fields && Check(merged).Ok? && parts != [] && parts[0] == "models"
    ensures ValidateModels(merged.fields["models"]).Ok?
    ensures Get(merged, parts, 0) == Get(merged.fields["models"], parts, 1)
    ensures Get(Check(merged).value, parts, 0) == Get(ValidateModels(merged.fields["models"]).value, parts, 1)
  {
    CheckedModels(merged);
  }

  lemma WrittenInside(d: Json, existing: Json, parts: seq<string>, value: Json)
    requires IsDefault(d) && existing.Obj? && parts != [] && parts[0] == "models"
    requires Validate(d, Set(existing, parts, 0, value)).Ok?
    ensures Get(Validate(d, Set(existing, parts, 0, value)).value, parts, 0) == Some(value) <==> IsWritten(d, parts, value)
  {
    var merged := Merge(d, Set(existing, parts, 0, value));
    var models := merged.fields["models"];
    MergeAfterSet(d, existing, parts, 0, value);
    InsideModels(merged, parts);
    assert Below(d, parts, 0) == Below(d.fields["models"], parts, 1);
    if |parts| == 1 {
      ModelsWritten(d, value, models);
    } else {
      ModelPartWritten(d, parts, value, models);
    }
  }

  /** An accepted value of any kind is what is written if and only if its object has every key of
      the default object it is merged with and, inside the models, it is no more than they keep. */
  lemma SetIsWrittenIff(d: Json, existing: Json, parts: seq<string>, value: Json)
    requires IsDefault(d) && existing.Obj? && parts != [] && Validate(d, Set(existing, parts, 0, value)).Ok?
    ensures Get(Validate(d, Set(existing, parts, 0, value)).value, parts, 0) == Some(value) <==> IsWritten(d, parts, value)
  {
    if parts[0] != "models" {
      WrittenOutside(d, existing, parts, value);
    } else {
      WrittenInside(d, existing, parts, value);
    }
  }

  lemma {:induction false} SetCovers(obj: Json, parts: seq<string>, i: nat, value: Json)
    requires obj.Obj? && i < |parts| && !value.Obj?
    ensures Covers(Set(obj, parts, i, value), obj)
    decreases |parts| - i
  {
    forall k | k in obj.fields && obj.fields[k].Obj? && Set(obj, parts, i, value).fields[k].Obj?
      ensures Covers(Set(obj, parts, i, value).fields[k], obj.fields[k])
    {
      if k == parts[i] {
        SetCovers(obj.fields[k], parts, i + 1, value);
      } else {
        MergeSelf(obj.fields[k]);
        CoversMeans(obj.fields[k], obj.fields[k]);
      }
    }
  }

  /** The default models, with a temperature for the first one. */
  const WARM_MODELS := Obj(DEFAULT_MODELS.fields["tier1" :=
    Obj(map["provider" := Str("anthropic"), "model" := Str("claude-opus-4-7"), "temperature" := Num(0.5)])])

  lemma WarmModelsAreValid()
    ensures ValidateModels(WARM_MODELS).Ok?
  {
    assert ValidateModel("tier1", At(WARM_MODELS, "tier1")).Ok?;
    assert ValidateModel("tier2", At(WARM_MODELS, "tier2")).Ok?;
    assert ValidateModel("tier3", At(WARM_MODELS, "tier3")).Ok?;
    assert ValidateModel("fallback", At(WARM_MODELS, "fallback")).Ok?;
  }

  lemma WarmIsSet()
    ensures Set(DEFAULT_CONFIG, ["models", "tier1", "temperature"], 0, Num(0.5)) == Obj(DEFAULT_CONFIG.fields["models" := WARM_MODELS])
  {
    var parts := ["models", "tier1", "temperature"];
    var tier1 := DEFAULT_MODELS.fields["tier1"];
    assert DEFAULT_CONFIG.fields["models"] == DEFAULT_MODELS;
    assert tier1 == ModelOf(Str("anthropic"), Str("claude-opus-4-7"));
    assert Set(tier1, parts, 2, Num(0.5)) == Obj(tier1.fields["temperature" := Num(0.5)]);
    assert Set(DEFAULT_MODELS, parts, 1, Num(0.5)) == WARM_MODELS;
  }

  lemma DefaultsAreGood()
    ensures BadFieldOf(DEFAULT_CONFIG) == None
  {
  }

  /** The checks on the other fields do not read the models. */
  lemma ModelsAreNotChecked(d: Json, models: Json)
    requires d.Obj?
    ensures BadFieldOf(Obj(d.fields["models" := models])) == BadFieldOf(d)
  {
    OthersUnchanged(d, models, "daemon_port");
    OthersUnchanged(d, models, "daemon_host");
    OthersUnchanged(d, models, "trace_sample_rate");
    OthersUnchanged(d, models, "sync_peers");
    OthersUnchanged(d, models, "parse_languages");
    OthersUnchanged(d, models, "parse_jobs");
    OthersUnchanged(d, models, "ingest_timeout_seconds");
  }

  lemma OtherDefaultsAreGood(models: Json)
    ensures BadFieldOf(Obj(DEFAULT_CONFIG.fields["models" := models])) == None
  {
    DefaultsAreGood();
    ModelsAreNotChecked(DEFAULT_CONFIG, models);
  }

  lemma AcceptedAndAbsent(d: Json, parts: seq<string>, value: Json, models: Json)
    requires d.Obj? && "models" in d.fields && parts != [] && !value.Obj? && !IsKept(parts)
    requires Set(d, parts, 0, value) == Obj(d.fields["models" := models]) && ValidateModels(models).Ok?
    requires BadFieldOf(Obj(d.fields["models" := ValidateModels(models).value])) == None
    ensures var r := Validate(d, Set(d, parts, 0, value)); r.Ok? && Get(r.value, parts, 0) == None
  {
    var s, norm := Set(d, parts, 0, value), ValidateModels(models).value;
    SetCovers(d, parts, 0, value);
    CoversMeans(s, d);
    assert s.fields["models" := norm] == d.fields["models" := norm];
    SetIsThroughObjects(d, parts, 0, value);
    GetAfterSet(d, parts, 0, value);
    ValidateKeepsPlain(d, s, parts);
  }

  /** Such a value: over the defaults a temperature for a model is accepted, and then absent. */
  lemma TemperatureIsDropped()
    ensures var r := Validate(DEFAULT_CONFIG, Set(DEFAULT_CONFIG, ["models", "tier1", "temperature"], 0, Num(0.5)));
      r.Ok? && Get(r.value, ["models", "tier1", "temperature"], 0) == None
  {
    WarmIsSet();
    WarmModelsAreValid();
    OtherDefaultsAreGood(ValidateModels(WARM_MODELS).value);
    AcceptedAndAbsent(DEFAULT_CONFIG, ["models", "tier1", "temperature"], Num(0.5), WARM_MODELS);
  }

  lemma OneKeyOver(d: Json, k: string, value: Json)
    requires d.Obj? && k in d.fields && d.fields[k].Obj? && value.Obj?
    ensures Merge(d, Obj(map[k := value])) == Obj(d.fields[k := Merge(d.fields[k], value)])
  {
    var l, r := Merge(d, Obj(map[k := value])), Obj(d.fields[k := Merge(d.fields[k], value)]);
    forall p
      ensures At(l, p) == At(r, p)
    {
      MergeAt(d, Obj(map[k := value]), p);
    }
    SameFields(l, r);
  }

  /** The checks do not read what is under `conflict`. */
  lemma ConflictIsNotChecked(v: Json, w: Json)
    requires forall p :: p != "conflict" ==> At(v, p) == At(w, p)
    ensures BadFieldOf(v) == BadFieldOf(w)
  {
    assert At(v, "daemon_port") == At(w, "daemon_port") && At(v, "daemon_host") == At(w, "daemon_host");
    assert At(v, "sync_peers") == At(w, "sync_peers") && At(v, "parse_languages") == At(w, "parse_languages");
  }

  lemma ConflictAccepted(d: Json, value: Json, merged: Json)
    requires d.Obj? && "models" in d.fields && merged == Obj(d.fields["conflict" := value])
    requires ValidateModels(d.fields["models"]).Ok?
    requires BadFieldOf(Obj(d.fields["models" := ValidateModels(d.fields["models"]).value])) == None
    ensures Check(merged).Ok? && At(Check(merged).value, "conflict") == Some(value)
  {
    var norm := ValidateModels(d.fields["models"]).value;
    assert At(merged, "models") == At(d, "models");
    ConflictIsNotChecked(Obj(merged.fields["models" := norm]), Obj(d.fields["models" := norm]));
  }

  lemma AcceptedAndMerged(d: Json, value: Json)
    requires d.Obj? && "models" in d.fields && "conflict" in d.fields && d.fields["conflict"].Obj? && value.Obj?
    requires ValidateModels(d.fields["models"]).Ok?
    requires BadFieldOf(Obj(d.fields["models" := ValidateModels(d.fields["models"]).value])) == None
    ensures var r := Validate(d, Set(Obj(map[]), ["conflict"], 0, value));
      r.Ok? && Get(r.value, ["conflict"], 0) == Some(Merge(d.fields["conflict"], value))
  {
    var s, w := Obj(map["conflict" := value]), Merge(d.fields["conflict"], value);
    assert Set(Obj(map[]), ["conflict"], 0, value) == s;
    OneKeyOver(d, "conflict", value);
    ConflictAccepted(d, w, Merge(d, s));
    assert Get(Validate(d, s).value, ["conflict"], 0) == Get(w, ["conflict"], 1);
  }

  lemma DefaultModelsAreValid()
    ensures ValidateModels(DEFAULT_MODELS).Ok?
  {
    assert ValidateModel("tier1", At(DEFAULT_MODELS, "tier1")).Ok?;
    assert ValidateModel("tier2", At(DEFAULT_MODELS, "tier2")).Ok?;
    assert ValidateModel("tier3", At(DEFAULT_MODELS, "tier3")).Ok?;
    assert ValidateModel("fallback", At(DEFAULT_MODELS, "fallback")).Ok?;
  }

  lemma OracleIsMerged()
    ensures "conflict" in DEFAULT_CONFIG.fields && "models" in DEFAULT_CONFIG.fields
    ensures DEFAULT_CONFIG.fields["models"] == DEFAULT_MODELS
    ensures DEFAULT_CONFIG.fields["conflict"] == Obj(map["oracle" := Str("contract-diff")])
    ensures Merge(Obj(map["oracle" := Str("contract-diff")]), Obj(map["adjacency" := Str("edge")]))
         == Obj(map["oracle" := Str("contract-diff"), "adjacency" := Str("edge")])
  {
    assert Merge(Obj(map["oracle" := Str("contract-diff")]), Obj(map["adjacency" := Str("edge")])).fields
        == map["oracle" := Str("contract-diff"), "adjacency" := Str("edge")];
  }

  /** Such a value: an object for `conflict` without an oracle gets the default one back. */
  lemma OracleComesBack()
    ensures var r := Validate(DEFAULT_CONFIG, Set(Obj(map[]), ["conflict"], 0, Obj(map["adjacency" := Str("edge")])));
      r.Ok? && Get(r.value, ["conflict"], 0) == Some(Obj(map["oracle" := Str("contract-diff"), "adjacency" := Str("edge")]))
  {
    OracleIsMerged();
    DefaultModelsAreValid();
    OtherDefaultsAreGood(ValidateModels(DEFAULT_MODELS).value);
    AcceptedAndMerged(DEFAULT_CONFIG, Obj(map["adjacency" := Str("edge")]));
  }
}
