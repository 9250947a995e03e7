/** The two aggregators of the Go trace client as objects
    (trace/go/aggregator.go and trace/go/coverage.go). */
module TraceAggregators {
  import opened TraceCounts

  datatype CallKey = CallKey(src: string, dst: string, kind: string)

  datatype CoverageKey = CoverageKey(test: string, entity: string)

  datatype Observation = Observation(key: CallKey, ts: int, observed: Int64)

  datatype CoverageRow = CoverageRow(key: CoverageKey, weight: Int64)

  function Edge(e: (string, string)): CallKey {
    CallKey(e.0, e.1, "call")
  }

  function EdgeKeys(edges: seq<(string, string)>): seq<CallKey> {
    seq(|edges|, i requires 0 <= i < |edges| => Edge(edges[i]))
  }

  predicate KeepCall(k: CallKey) {
    k.src != "" && k.dst != ""
  }

  predicate KeepCoverage(k: CoverageKey) {
    k.test != "" && k.entity != ""
  }

  /** `keys` are the keys of `m`, each once. */
  ghost predicate AreKeys<K(!new)>(keys: seq<K>, m: Counts<K>) {
    && (forall k :: k in keys <==> k in m)
    && (forall i, j :: 0 <= i < j < |keys| ==> keys[i] != keys[j])
  }

  /** Go ranges over a map in any order. */
  method KeysOf<K(==, !new)>(m: Counts<K>) returns (keys: seq<K>)
    ensures AreKeys(keys, m) && |keys| == |m|
  {
    keys := [];
    var left := m.Keys;
    while left != {}
      invariant left <= m.Keys && |keys| + |left| == |m|
      invariant forall k :: k in keys <==> k in m && k !in left
      invariant forall i, j :: 0 <= i < j < |keys| ==> keys[i] != keys[j]
      decreases |left|
    {
      var k :| k in left;
      left, keys := left - {k}, keys + [k];
    }
  }

  class Aggregator {
    var counts: Counts<CallKey>

    constructor ()
      ensures counts == map[]
    {
      counts := map[];
    }

    method DoAdd(src: string, dst: string, n: Int64)
      modifies this
      ensures counts == Apply(KeepCall, old(counts), Add(Edge((src, dst)), n))
    {
      if src == "" || dst == "" || n <= 0 {
        return;
      }
      var k := CallKey(src, dst, "call");
      var held: int := Get(counts, k);
      counts := counts[k := Wrap(held + n)];
    }

    method DoAddMany(edges: seq<(string, string)>)
      modifies this
      ensures counts == Apply(KeepCall, old(counts), AddMany(EdgeKeys(edges)))
    {
      for i := 0 to |edges|
        invariant counts == BumpAll(KeepCall, old(counts), EdgeKeys(edges), i)
      {
        var e := edges[i];
        if e.0 == "" || e.1 == "" {
          continue;
        }
        var k := CallKey(e.0, e.1, "call");
        var held: int := Get(counts, k);
        counts := counts[k := Wrap(held + 1)];
      }
    }

    /** Every held count is handed out once, and nothing is held any more. */
    method DoDrain(ts: int) returns (out: seq<Observation>)
      modifies this
      ensures counts == Apply(KeepCall, old(counts), Drain) == map[]
      ensures |out| == |old(counts)|
      ensures forall k :: k in old(counts) ==> Observation(k, ts, old(counts)[k]) in out
      ensures forall i :: 0 <= i < |out| ==> out[i].key in old(counts) && out[i] == Observation(out[i].key, ts, old(counts)[out[i].key])
    {
      var held := counts;
      counts := map[];
      var keys := KeysOf(held);
      out := [];
      for i := 0 to |keys|
        invariant |out| == i
        invariant forall j :: 0 <= j < i ==> out[j] == Observation(keys[j], ts, Get(held, keys[j]))
      {
        assert keys[i] in held;
        out := out + [Observation(keys[i], ts, held[keys[i]])];
      }
      forall k | k in held
        ensures Observation(k, ts, held[k]) in out
      {
        var j :| 0 <= j < |keys| && keys[j] == k;
        assert out[j] == Observation(k, ts, held[k]);
      }
    }
  }

  class CoverageAggregator {
    var counts: Counts<CoverageKey>

    constructor ()
      ensures counts == map[]
    {
      counts := map[];
    }

    method DoAdd(test: string, entity: string, n: Int64)
      modifies this
      ensures counts == Apply(KeepCoverage, old(counts), Add(CoverageKey(test, entity), n))
    {
      if test == "" || entity == "" || n <= 0 {
        return;
      }
      var k := CoverageKey(test, entity);
      var held: int := Get(counts, k);
      counts := counts[k := Wrap(held + n)];
    }

    method DoDrain() returns (out: seq<CoverageRow>)
      modifies this
      ensures counts == Apply(KeepCoverage, old(counts), Drain) == map[]
      ensures |out| == |old(counts)|
      ensures forall k :: k in old(counts) ==> CoverageRow(k, old(counts)[k]) in out
      ensures forall i :: 0 <= i < |out| ==> out[i].key in old(counts) && out[i] == CoverageRow(out[i].key, old(counts)[out[i].key])
    {
      var held := counts;
      counts := map[];
      var keys := KeysOf(held);
      out := [];
      for i := 0 to |keys|
        invariant |out| == i
        invariant forall j :: 0 <= j < i ==> out[j] == CoverageRow(keys[j], Get(held, keys[j]))
      {
        assert keys[i] in held;
        out := out + [CoverageRow(keys[i], held[keys[i]])];
      }
      forall k | k in held
        ensures CoverageRow(k, held[k]) in out
      {
        var j :| 0 <= j < |keys| && keys[j] == k;
        assert out[j] == CoverageRow(k, held[k]);
      }
    }
  }
}
