/** The flush of the Go trace client: clamping and the batch
    (trace/go/flusher.go). */
module TraceFlusher {
  import opened Common
  import opened TraceCounts
  import opened TraceAggregators

  const MAX_COUNT: Int64 := 0xFFFF

  datatype WireObservation = WireObservation(key: CallKey, ts: int, observed: Int64, weight: Int64)

  // ---------------------------------------------------------------- the clamp

  /** Observed and weight as sent, in 64-bit arithmetic. */
  function Clamp(count: Int64, rate: Int64): (Int64, Int64)
    requires rate >= 1
  {
    var observed := Min(count, MAX_COUNT);
    var weight := Wrap(observed * rate);
    if weight > MAX_COUNT then
      var reduced := MAX_COUNT / rate;
      (reduced, Wrap(reduced * rate))
    else (observed, weight)
  }

  /** The count sent is the largest that keeps the weight exact and within range. */
  ghost predicate IsExactClamp(count: Int64, rate: Int64, sent: (Int64, Int64)) {
    && sent.0 <= count && sent.1 == sent.0 * rate <= MAX_COUNT
    && forall other: int {:trigger other * rate} :: other <= count && other * rate <= MAX_COUNT ==> other <= sent.0
  }

  lemma QuotientIsLargest(rate: int, x: int)
    requires rate >= 1
    ensures x * rate <= 0xFFFF <==> x <= 0xFFFF / rate
  {
    var q := 0xFFFF / rate;
    if x <= q {
      assert x * rate <= q * rate;
    } else {
      assert x * rate >= (q + 1) * rate;
    }
  }

  lemma ExactClampIsMin(count: Int64, rate: Int64, sent: (Int64, Int64))
    requires rate >= 1
    ensures IsExactClamp(count, rate, sent) <==> sent.0 == Min(count, MAX_COUNT / rate) && sent.1 == sent.0 * rate
  {
    var best := Min(count, MAX_COUNT / rate);
    QuotientIsLargest(rate, best);
    QuotientIsLargest(rate, sent.0);
    if sent.0 == best && sent.1 == best * rate {
      forall other: int {:trigger other * rate} | other <= count && other * rate <= MAX_COUNT
        ensures other <= best
      {
        QuotientIsLargest(rate, other);
      }
    }
  }

  /** The product the code computes either does not wrap, or wraps to something
      still above the ceiling: exactly then the clamp is right. */
  lemma ClampIsExactIff(count: Int64, rate: Int64)
    requires rate >= 1
    ensures var product := Min(count, MAX_COUNT) * rate;
      IsExactClamp(count, rate, Clamp(count, rate))
      <==> Wrap(product) == product || (product > MAX_COUNT && Wrap(product) > MAX_COUNT)
  {
    var observed, q := Min(count, MAX_COUNT), MAX_COUNT / rate;
    ExactClampIsMin(count, rate, Clamp(count, rate));
    QuotientIsLargest(rate, observed);
    ReducedFits(rate);
    WrapsFromBelow(observed, rate);
    ClampDecides(count, q, observed * rate, Wrap(observed * rate));
  }

  /** A negative product may wrap above the ceiling, and comes from a negative count. */
  lemma WrapsFromBelow(observed: int, rate: int)
    requires rate >= 1
    ensures Wrap(observed * rate) > 0xFFFF && observed * rate <= 0xFFFF ==> observed < 0
  {
    if observed >= 0 {
      assert observed * rate >= 0;
      if observed * rate <= 0xFFFF {
        WrapFits(observed * rate);
      }
    }
  }

  lemma ReducedFits(rate: Int64)
    requires rate >= 1
    ensures 0 <= MAX_COUNT / rate <= MAX_COUNT && Wrap(MAX_COUNT / rate * rate) == MAX_COUNT / rate * rate <= MAX_COUNT
  {
    var q := MAX_COUNT / rate;
    QuotientIsLargest(rate, q);
    assert 0 <= q * rate;
    WrapFits(q * rate);
  }

  lemma ClampDecides(count: int, q: int, product: int, wrapped: int)
    requires 0 <= q <= 0xFFFF && (Min(count, 0xFFFF) <= q <==> product <= 0xFFFF)
    requires wrapped > 0xFFFF && product <= 0xFFFF ==> Min(count, 0xFFFF) < 0
    ensures (if wrapped > 0xFFFF then q == Min(count, q) else Min(count, 0xFFFF) == Min(count, q) && wrapped == product)
       <==> wrapped == product || (product > 0xFFFF && wrapped > 0xFFFF)
  {
  }

  lemma ProductBound(a: int, rate: int)
    requires 0 <= a <= 0xFFFF && 1 <= rate < 0x8000_0000_0000
    ensures 0 <= a * rate < TWO_63
  {
    assert a * rate <= 0xFFFF * rate;
  }

  /** No sampling rate below 2^47 can go wrong. */
  lemma ModestRatesAreExact(count: Int64, rate: Int64)
    requires 1 <= rate < 0x8000_0000_0000 && count >= 0
    ensures IsExactClamp(count, rate, Clamp(count, rate))
  {
    var observed: int := Min(count, MAX_COUNT);
    ProductBound(observed, rate);
    WrapFits(observed * rate);
    ClampIsExactIff(count, rate);
  }

  /** Four observations at rate 2^62 are sent with weight zero. */
  lemma HugeRateBreaksClamp()
    ensures Clamp(4, 0x4000_0000_0000_0000) == (4, 0)
    ensures !IsExactClamp(4, 0x4000_0000_0000_0000, Clamp(4, 0x4000_0000_0000_0000))
  {
  }

  // ---------------------------------------------------------------- the payload

  function EncodeObservation(o: Observation, rate: Int64): WireObservation
    requires rate >= 1
  {
    var (observed, weight) := Clamp(o.observed, rate);
    WireObservation(if o.key.kind == "" then o.key.(kind := "call") else o.key, o.ts, observed, weight)
  }

  /** A row keeps the ends and the time of its edge, calls an unnamed kind a call, and carries a count that is
      at most the observed one and, at rate 1, just the observed one up to the ceiling, with an equal weight. */
  lemma RowMeans(o: Observation, rate: Int64)
    requires rate >= 1 && o.observed >= 0
    ensures var row := EncodeObservation(o, rate);
      && row.key.src == o.key.src && row.key.dst == o.key.dst && row.ts == o.ts
      && row.key.kind == (if o.key.kind == "" then "call" else o.key.kind)
      && 0 <= row.observed <= o.observed && row.weight <= MAX_COUNT
      && (rate == 1 ==> row.observed == row.weight == Min(o.observed, MAX_COUNT))
      && (rate < 0x8000_0000_0000 ==> row.weight == row.observed * rate && row.observed == Min(o.observed, MAX_COUNT / rate))
  {
    if rate < 0x8000_0000_0000 {
      ModestRatesAreExact(o.observed, rate);
      ExactClampIsMin(o.observed, rate, Clamp(o.observed, rate));
    }
    ReducedFits(rate);
  }

  /** Well-formed cells in order, each clamped. */
  function EncodeCoverage(rows: seq<CoverageRow>, n: nat): seq<CoverageRow>
    requires n <= |rows|
  {
    if n == 0 then []
    else
      var r := rows[n - 1];
      EncodeCoverage(rows, n - 1)
        + (if r.key.test == "" || r.key.entity == "" || r.weight <= 0 then []
           else [CoverageRow(r.key, Min(r.weight, MAX_COUNT))])
  }

  datatype Payload = Payload(
    source: string, sampleRate: Int64, observations: seq<WireObservation>, testCoverage: seq<CoverageRow>)

  /** One row for every observation, in order, and the clamped coverage cells. */
  ghost predicate IsEncoding(p: Payload, rate: Int64, obs: seq<Observation>, cov: seq<CoverageRow>) {
    && p.sampleRate == (if rate < 1 then 1 else rate)
    && |p.observations| == |obs|
    && (forall i :: 0 <= i < |obs| ==> p.observations[i] == EncodeObservation(obs[i], if rate < 1 then 1 else rate))
    && p.testCoverage == EncodeCoverage(cov, |cov|)
  }

  lemma {:induction false} CoverageIsClamped(rows: seq<CoverageRow>, n: nat)
    requires n <= |rows|
    ensures forall r :: r in EncodeCoverage(rows, n) <==>
      exists i :: 0 <= i < n && KeepCoverage(rows[i].key) && rows[i].weight > 0
        && r == CoverageRow(rows[i].key, Min(rows[i].weight, MAX_COUNT))
  {
    if n > 0 {
      CoverageIsClamped(rows, n - 1);
    }
  }

  method Encode(source: string, sampleRate: Int64, obs: seq<Observation>, cov: seq<CoverageRow>) returns (p: Payload)
    ensures p.source == source && IsEncoding(p, sampleRate, obs, cov)
  {
    var rate: Int64 := sampleRate;
    if rate < 1 {
      rate := 1;
    }
    var out: seq<WireObservation> := [];
    for i := 0 to |obs|
      invariant |out| == i && forall j :: 0 <= j < i ==> out[j] == EncodeObservation(obs[j], rate)
    {
      var o := obs[i];
      var observed: Int64 := o.observed;
      if observed > MAX_COUNT {
        observed := MAX_COUNT;
      }
      var product: int := observed as int * rate as int;
      var weight := Wrap(product);
      if weight > MAX_COUNT {
        observed := MAX_COUNT / rate;
        product := observed as int * rate as int;
        weight := Wrap(product);
      }
      var kind := o.key.kind;
      if kind == "" {
        kind := "call";
      }
      out := out + [WireObservation(CallKey(o.key.src, o.key.dst, kind), o.ts, observed, weight)];
    }
    var cells: seq<CoverageRow> := [];
    for i := 0 to |cov|
      invariant cells == EncodeCoverage(cov, i)
    {
      var c := cov[i];
      if c.key.test == "" || c.key.entity == "" || c.weight <= 0 {
        continue;
      }
      var w: Int64 := c.weight;
      if w > MAX_COUNT {
        w := MAX_COUNT;
      }
      cells := cells + [CoverageRow(c.key, w)];
    }
    p := Payload(source, rate, out, cells);
  }

  /** `p` encodes some listing of the held edges and cells, each exactly once. */
  ghost predicate IsBatch(p: Payload, rate: Int64, ts: int, edges: Counts<CallKey>, cells: Counts<CoverageKey>) {
    exists obs, rows ::
      (&& IsEncoding(p, rate, obs, rows) && |obs| == |edges| && |rows| == |cells|
       && (forall k :: k in edges ==> Observation(k, ts, edges[k]) in obs)
       && (forall k :: k in cells ==> CoverageRow(k, cells[k]) in rows))
  }

  class Flusher {
    const agg: Aggregator
    const cov: CoverageAggregator?
    const source: string
    const sampleRate: Int64
    var lastFlushAt: Option<int>
    var lastFlushCount: nat
    var failed: bool

    constructor (agg: Aggregator, cov: CoverageAggregator?, source: string, sampleRate: Int64)
      ensures this.agg == agg && this.cov == cov && this.source == source && this.sampleRate == sampleRate
      ensures lastFlushAt == None && lastFlushCount == 0 && !failed
    {
      this.agg, this.cov, this.source, this.sampleRate := agg, cov, source, sampleRate;
      lastFlushAt, lastFlushCount, failed := None, 0, false;
    }

    /** Both aggregators are emptied, whatever becomes of the batch; every held
        edge is in the batch once. `sent` is the transport's answer. */
    method FlushOnce(ts: int, now: int, sent: bool) returns (count: nat, batch: Option<Payload>)
      modifies this, agg, cov
      ensures agg.counts == map[] && (cov != null ==> cov.counts == map[])
      ensures count == |old(agg.counts)|
      ensures batch.None? <==> old(agg.counts) == map[] && (cov != null ==> old(cov.counts) == map[])
      ensures batch.Some? ==>
        IsBatch(batch.value, sampleRate, ts, old(agg.counts), if cov == null then map[] else old(cov.counts))
      ensures batch.None? ==> lastFlushAt == old(lastFlushAt) && lastFlushCount == old(lastFlushCount) && failed == old(failed)
      ensures batch.Some? && sent ==> lastFlushAt == Some(now) && lastFlushCount == count && !failed
      ensures batch.Some? && !sent ==> lastFlushAt == old(lastFlushAt) && lastFlushCount == old(lastFlushCount) && failed
    {
      var obs := agg.DoDrain(ts);
      var cells: seq<CoverageRow> := [];
      if cov != null {
        cells := cov.DoDrain();
      }
      if |obs| == 0 && |cells| == 0 {
        return 0, None;
      }
      var p := Encode(source, sampleRate, obs, cells);
      if !sent {
        failed := true;
        return |obs|, Some(p);
      }
      lastFlushAt, lastFlushCount, failed := Some(now), |obs|, false;
      return |obs|, Some(p);
    }
  }
}
