/** The contract-diff verdict on two concurrent claims
    (daemon/src/conflict/contract_diff_oracle.ts and the edge index of
    daemon/src/conflict/native_signatures.ts). */
module ClaimVerdict {
  import opened Common
  import Neighbors

  datatype Visibility = Public | Private | Unknown

  datatype Signature = Signature(visibility: Visibility, hasCallable: bool)

  /** What a signature is extracted from. */
  datatype Source = Source(name: string, kind: string, language: string, file: string, body: string)

  datatype Entity = Entity(id: string, source: Source, moduleName: string, imports: set<string>)

  datatype Intent = ContractIntent | InternalIntent | Ambiguous

  /** The oracle's injected collaborators; each of the first three may be missing. */
  datatype Oracle = Oracle(
    extractor: Option<Source -> Option<Signature>>,
    edgeIndex: Option<(string, string) -> bool>,
    callGraph: Option<(Entity, Entity) -> bool>,
    intentOf: string -> Intent)

  datatype Verdict = Verdict(conflict: bool, confidence: real)

  // ---------------------------------------------------------------- one pair of entities

  /** A signature that cannot be extracted might be public. */
  function SignatureFor(o: Oracle, s: Source): Signature {
    if o.extractor.Some? && o.extractor.value(s).Some? then o.extractor.value(s).value else Signature(Unknown, true)
  }

  predicate IsContractEdit(o: Oracle, target: Entity, intent: string) {
    var sig := SignatureFor(o, target.source);
    match o.intentOf(intent)
    case InternalIntent => false
    case ContractIntent => sig.visibility != Private
    case Ambiguous => sig.hasCallable && sig.visibility != Private
  }

  predicate Depends(o: Oracle, source: Entity, target: Entity) {
    || target.id in source.imports
    || (o.edgeIndex.Some? && o.edgeIndex.value(source.id, target.id))
    || (o.callGraph.Some? && o.callGraph.value(source, target))
  }

  /** Both claims' entity and intent. */
  function AssessPair(o: Oracle, a: Entity, intentA: string, b: Entity, intentB: string): Verdict {
    if a.id == b.id then Verdict(true, 1.0)
    else
      var aContract, bContract := IsContractEdit(o, a, intentA), IsContractEdit(o, b, intentB);
      var aBreaksB, bBreaksA := aContract && Depends(o, b, a), bContract && Depends(o, a, b);
      if aBreaksB || bBreaksA then Verdict(true, 0.85)
      else if aContract && bContract && a.moduleName == b.moduleName then Verdict(true, 0.6)
      else Verdict(false, 0.7)
  }

  /** The intent is not internal, and no extracted signature shows that nothing public can change: it is
      private or, for an intent that says nothing, has no callable. A failed extraction shows nothing. */
  ghost predicate ChangesContract(o: Oracle, e: Entity, intent: string) {
    && o.intentOf(intent) != InternalIntent
    && forall sig :: o.extractor.Some? && o.extractor.value(e.source) == Some(sig) ==>
         sig.visibility != Private && (o.intentOf(intent) == Ambiguous ==> sig.hasCallable)
  }

  /** The imports, the edge index or the call graph lead from `x` to `y`. */
  ghost predicate References(o: Oracle, x: Entity, y: Entity) {
    || y.id in x.imports
    || (exists index :: o.edgeIndex == Some(index) && index(x.id, y.id))
    || (exists graph :: o.callGraph == Some(graph) && graph(x, y))
  }

  /** One edit changes a contract that the other entity refers to. */
  ghost predicate Breaks(o: Oracle, a: Entity, intentA: string, b: Entity, intentB: string) {
    (ChangesContract(o, a, intentA) && References(o, b, a)) || (ChangesContract(o, b, intentB) && References(o, a, b))
  }

  /** Both edits change a contract of one module. */
  ghost predicate Collides(o: Oracle, a: Entity, intentA: string, b: Entity, intentB: string) {
    ChangesContract(o, a, intentA) && ChangesContract(o, b, intentB) && a.moduleName == b.moduleName
  }

  lemma EditMeans(o: Oracle, e: Entity, intent: string)
    ensures IsContractEdit(o, e, intent) <==> ChangesContract(o, e, intent)
  {
  }

  lemma DependsMeans(o: Oracle, x: Entity, y: Entity)
    ensures Depends(o, x, y) <==> References(o, x, y)
  {
  }

  /** What each verdict on a pair says about it. */
  lemma PairMeans(o: Oracle, a: Entity, intentA: string, b: Entity, intentB: string)
    ensures AssessPair(o, a, intentA, b, intentB) ==
      if a.id == b.id then Verdict(true, 1.0)
      else if Breaks(o, a, intentA, b, intentB) then Verdict(true, 0.85)
      else if Collides(o, a, intentA, b, intentB) then Verdict(true, 0.6)
      else Verdict(false, 0.7)
  {
    EditMeans(o, a, intentA);
    EditMeans(o, b, intentB);
    DependsMeans(o, a, b);
    DependsMeans(o, b, a);
  }

  /** How much a verdict blocks: nothing unless it is a conflict. */
  function Strength(v: Verdict): real {
    if v.conflict then v.confidence else 0.0
  }

  lemma PairIsSymmetric(o: Oracle, a: Entity, intentA: string, b: Entity, intentB: string)
    ensures AssessPair(o, a, intentA, b, intentB) == AssessPair(o, b, intentB, a, intentA)
  {
  }

  /** `o'` knows every dependency that `o` knows, and judges edits alike. */
  ghost predicate KnowsMore(o: Oracle, o': Oracle) {
    && o.extractor == o'.extractor && o.intentOf == o'.intentOf
    && (forall s, t :: o.edgeIndex.Some? && o.edgeIndex.value(s, t) ==> o'.edgeIndex.Some? && o'.edgeIndex.value(s, t))
    && (forall s, t, s', t' :: o.callGraph.Some? && o.callGraph.value(s, t) && Extends(s, s') && Extends(t, t') ==>
          o'.callGraph.Some? && o'.callGraph.value(s', t'))
  }

  /** The same entity with at least the same imports. */
  predicate Extends(e: Entity, e': Entity) {
    e'.id == e.id && e'.source == e.source && e'.moduleName == e.moduleName && e.imports <= e'.imports
  }

  lemma PairIsMonotone(o: Oracle, o': Oracle, a: Entity, a': Entity, intentA: string, b: Entity, b': Entity, intentB: string)
    requires KnowsMore(o, o') && Extends(a, a') && Extends(b, b')
    ensures Strength(AssessPair(o, a, intentA, b, intentB)) <= Strength(AssessPair(o', a', intentA, b', intentB))
  {
    assert Depends(o, a, b) ==> Depends(o', a', b');
    assert Depends(o, b, a) ==> Depends(o', b', a');
  }

  // ---------------------------------------------------------------- two claims

  type Resolver = string -> Option<Entity>

  datatype Claim = Claim(scope: seq<string>, intent: string)

  /** The entities that the first `n` ids of a scope resolve to. */
  function Entities(resolve: Resolver, scope: seq<string>, n: nat): seq<Entity>
    requires n <= |scope|
  {
    if n == 0 then []
    else
      var r := resolve(scope[n - 1]);
      Entities(resolve, scope, n - 1) + (if r.None? then [] else [r.value])
  }

  ghost predicate InScope(resolve: Resolver, scope: seq<string>, e: Entity) {
    exists id :: id in scope && resolve(id) == Some(e)
  }

  lemma {:induction false} EntitiesAreScope(resolve: Resolver, scope: seq<string>, n: nat)
    requires n <= |scope|
    ensures forall e :: e in Entities(resolve, scope, n) <==> InScope(resolve, scope[..n], e)
  {
    if n > 0 {
      EntitiesAreScope(resolve, scope, n - 1);
      assert scope[..n] == scope[..n - 1] + [scope[n - 1]];
      assert scope[n - 1] in scope[..n];
      forall e
        ensures e in Entities(resolve, scope, n) <==> InScope(resolve, scope[..n], e)
      {
        if e in Entities(resolve, scope, n - 1) {
          var id :| id in scope[..n - 1] && resolve(id) == Some(e);
          assert id in scope[..n];
        } else if InScope(resolve, scope[..n], e) {
          var id :| id in scope[..n] && resolve(id) == Some(e);
          assert id == scope[n - 1];
        }
      }
    }
  }

  ghost predicate Resolves(resolve: Resolver, scope: seq<string>) {
    exists e :: InScope(resolve, scope, e)
  }

  /** An entity of each scope, and the verdict on them. */
  ghost predicate IsPair(o: Oracle, resolve: Resolver, a: Claim, b: Claim, x: Entity, y: Entity, v: Verdict) {
    InScope(resolve, a.scope, x) && InScope(resolve, b.scope, y) && v == AssessPair(o, x, a.intent, y, b.intent)
  }

  /** The verdict on two claims, with no regard to the order of ids or of claims:
      the strongest conflict among the pairs, if there is one. */
  ghost predicate IsVerdict(o: Oracle, resolve: Resolver, a: Claim, b: Claim, v: Verdict) {
    if !Resolves(resolve, a.scope) || !Resolves(resolve, b.scope) then v == Verdict(false, 0.0)
    else if v.conflict then
      && (exists x, y :: IsPair(o, resolve, a, b, x, y, v))
      && forall x, y, w :: IsPair(o, resolve, a, b, x, y, w) && w.conflict ==> w.confidence <= v.confidence
    else
      v == Verdict(false, 0.7) && forall x, y, w :: IsPair(o, resolve, a, b, x, y, w) ==> !w.conflict
  }

  lemma VerdictIsUnique(o: Oracle, resolve: Resolver, a: Claim, b: Claim, v: Verdict, w: Verdict)
    requires IsVerdict(o, resolve, a, b, v) && IsVerdict(o, resolve, a, b, w)
    ensures v == w
  {
  }

  lemma PairSwaps(o: Oracle, resolve: Resolver, a: Claim, b: Claim, x: Entity, y: Entity, v: Verdict)
    ensures IsPair(o, resolve, a, b, x, y, v) <==> IsPair(o, resolve, b, a, y, x, v)
  {
    PairIsSymmetric(o, x, a.intent, y, b.intent);
  }

  /** It does not matter which claim came first. */
  lemma VerdictIsSymmetric(o: Oracle, resolve: Resolver, a: Claim, b: Claim, v: Verdict)
    requires IsVerdict(o, resolve, a, b, v)
    ensures IsVerdict(o, resolve, b, a, v)
  {
    forall x, y, w
      ensures IsPair(o, resolve, a, b, x, y, w) <==> IsPair(o, resolve, b, a, y, x, w)
    {
      PairSwaps(o, resolve, a, b, x, y, w);
    }
    if Resolves(resolve, a.scope) && Resolves(resolve, b.scope) && v.conflict {
      var x, y :| IsPair(o, resolve, a, b, x, y, v);
      assert IsPair(o, resolve, b, a, y, x, v);
    }
  }

  lemma SameIdsSameScope(resolve: Resolver, s: seq<string>, t: seq<string>, e: Entity)
    requires forall id :: id in s <==> id in t
    ensures InScope(resolve, s, e) <==> InScope(resolve, t, e)
  {
  }

  /** Nor does the order or repetition of ids in a scope. */
  lemma VerdictIgnoresOrder(o: Oracle, resolve: Resolver, a: Claim, b: Claim, a': Claim, b': Claim, v: Verdict)
    requires IsVerdict(o, resolve, a, b, v) && a'.intent == a.intent && b'.intent == b.intent
    requires (forall id :: id in a.scope <==> id in a'.scope) && (forall id :: id in b.scope <==> id in b'.scope)
    ensures IsVerdict(o, resolve, a', b', v)
  {
    forall e
      ensures InScope(resolve, a.scope, e) <==> InScope(resolve, a'.scope, e)
      ensures InScope(resolve, b.scope, e) <==> InScope(resolve, b'.scope, e)
    {
      SameIdsSameScope(resolve, a.scope, a'.scope, e);
      SameIdsSameScope(resolve, b.scope, b'.scope, e);
    }
    forall x, y, w
      ensures IsPair(o, resolve, a, b, x, y, w) <==> IsPair(o, resolve, a', b', x, y, w)
    {
    }
    assert Resolves(resolve, a.scope) <==> Resolves(resolve, a'.scope);
    assert Resolves(resolve, b.scope) <==> Resolves(resolve, b'.scope);
  }

  /** Certainty means one entity in both scopes. */
  lemma CertainIffShared(o: Oracle, resolve: Resolver, a: Claim, b: Claim, v: Verdict)
    requires IsVerdict(o, resolve, a, b, v)
    ensures v == Verdict(true, 1.0) <==>
      exists x, y :: InScope(resolve, a.scope, x) && InScope(resolve, b.scope, y) && x.id == y.id
  {
    if x, y :| InScope(resolve, a.scope, x) && InScope(resolve, b.scope, y) && x.id == y.id {
      assert IsPair(o, resolve, a, b, x, y, Verdict(true, 1.0));
      if v.conflict {
        var x', y' :| IsPair(o, resolve, a, b, x', y', v);
      }
    }
    if v == Verdict(true, 1.0) {
      var x, y :| IsPair(o, resolve, a, b, x, y, v);
    }
  }

  ghost predicate SomeShared(resolve: Resolver, a: Claim, b: Claim) {
    exists x, y :: InScope(resolve, a.scope, x) && InScope(resolve, b.scope, y) && x.id == y.id
  }

  ghost predicate SomeBreaks(o: Oracle, resolve: Resolver, a: Claim, b: Claim) {
    exists x, y :: InScope(resolve, a.scope, x) && InScope(resolve, b.scope, y) && Breaks(o, x, a.intent, y, b.intent)
  }

  ghost predicate SomeCollide(o: Oracle, resolve: Resolver, a: Claim, b: Claim) {
    exists x, y :: InScope(resolve, a.scope, x) && InScope(resolve, b.scope, y) && Collides(o, x, a.intent, y, b.intent)
  }

  lemma PairOf(o: Oracle, resolve: Resolver, a: Claim, b: Claim, x: Entity, y: Entity) returns (w: Verdict)
    requires InScope(resolve, a.scope, x) && InScope(resolve, b.scope, y)
    ensures IsPair(o, resolve, a, b, x, y, w)
    ensures w == if x.id == y.id then Verdict(true, 1.0)
                 else if Breaks(o, x, a.intent, y, b.intent) then Verdict(true, 0.85)
                 else if Collides(o, x, a.intent, y, b.intent) then Verdict(true, 0.6)
                 else Verdict(false, 0.7)
  {
    w := AssessPair(o, x, a.intent, y, b.intent);
    PairMeans(o, x, a.intent, y, b.intent);
  }

  /** A verdict is at least as strong as what some pair calls for. */
  lemma VerdictIsStrong(o: Oracle, resolve: Resolver, a: Claim, b: Claim, v: Verdict)
    requires IsVerdict(o, resolve, a, b, v)
    ensures SomeShared(resolve, a, b) ==> v.conflict && v.confidence >= 1.0
    ensures SomeBreaks(o, resolve, a, b) ==> v.conflict && v.confidence >= 0.85
    ensures SomeCollide(o, resolve, a, b) ==> v.conflict && v.confidence >= 0.6
  {
    if x, y :| InScope(resolve, a.scope, x) && InScope(resolve, b.scope, y) && x.id == y.id {
      var w := PairOf(o, resolve, a, b, x, y);
    }
    if x, y :| InScope(resolve, a.scope, x) && InScope(resolve, b.scope, y) && Breaks(o, x, a.intent, y, b.intent) {
      var w := PairOf(o, resolve, a, b, x, y);
    }
    if x, y :| InScope(resolve, a.scope, x) && InScope(resolve, b.scope, y) && Collides(o, x, a.intent, y, b.intent) {
      var w := PairOf(o, resolve, a, b, x, y);
    }
  }

  /** The verdict on two claims, over intents, signatures, references and modules alone. */
  lemma VerdictMeans(o: Oracle, resolve: Resolver, a: Claim, b: Claim, v: Verdict)
    requires IsVerdict(o, resolve, a, b, v)
    ensures v ==
      if !Resolves(resolve, a.scope) || !Resolves(resolve, b.scope) then Verdict(false, 0.0)
      else if SomeShared(resolve, a, b) then Verdict(true, 1.0)
      else if SomeBreaks(o, resolve, a, b) then Verdict(true, 0.85)
      else if SomeCollide(o, resolve, a, b) then Verdict(true, 0.6)
      else Verdict(false, 0.7)
  {
    VerdictIsStrong(o, resolve, a, b, v);
    if v.conflict {
      var x, y :| IsPair(o, resolve, a, b, x, y, v);
      var w := PairOf(o, resolve, a, b, x, y);
    }
  }

  /** Internal edits of different entities never conflict. */
  lemma InternalEditsAreBenign(o: Oracle, resolve: Resolver, a: Claim, b: Claim, v: Verdict)
    requires IsVerdict(o, resolve, a, b, v) && !SomeShared(resolve, a, b)
    requires o.intentOf(a.intent) == InternalIntent && o.intentOf(b.intent) == InternalIntent
    ensures !v.conflict
  {
    VerdictMeans(o, resolve, a, b, v);
  }

  /** A contract edit of an entity that is not private blocks every claim on an importer of it. */
  lemma ContractEditBlocksImporters(o: Oracle, resolve: Resolver, a: Claim, b: Claim, x: Entity, y: Entity, sig: Signature, v: Verdict)
    requires IsVerdict(o, resolve, a, b, v) && InScope(resolve, a.scope, x) && InScope(resolve, b.scope, y)
    requires o.intentOf(a.intent) == ContractIntent && x.id in y.imports
    requires o.extractor == None || o.extractor.value(x.source) == None
      || (o.extractor.value(x.source) == Some(sig) && sig.visibility != Private)
    ensures v.conflict && v.confidence >= 0.85
  {
    assert ChangesContract(o, x, a.intent);
    assert References(o, y, x);
    assert Breaks(o, x, a.intent, y, b.intent);
    VerdictIsStrong(o, resolve, a, b, v);
  }

  /** `more` resolves every id of `s` that `resolve` does, to the same entity or one with more imports. */
  ghost predicate ResolvesMore(resolve: Resolver, s: seq<string>, more: Resolver, t: seq<string>) {
    forall e :: InScope(resolve, s, e) ==> exists e' :: InScope(more, t, e') && Extends(e, e')
  }

  lemma ConflictRemains(o: Oracle, o': Oracle, resolve: Resolver, more: Resolver, a: Claim, b: Claim, a': Claim, b': Claim, v: Verdict)
    returns (x: Entity, y: Entity, w: Verdict)
    requires KnowsMore(o, o') && a'.intent == a.intent && b'.intent == b.intent
    requires ResolvesMore(resolve, a.scope, more, a'.scope) && ResolvesMore(resolve, b.scope, more, b'.scope)
    requires v.conflict && exists x, y :: IsPair(o, resolve, a, b, x, y, v)
    ensures IsPair(o', more, a', b', x, y, w) && w.conflict && v.confidence <= w.confidence
  {
    var x0, y0 :| IsPair(o, resolve, a, b, x0, y0, v);
    x :| InScope(more, a'.scope, x) && Extends(x0, x);
    y :| InScope(more, b'.scope, y) && Extends(y0, y);
    PairIsMonotone(o, o', x0, x, a.intent, y0, y, b.intent);
    w := AssessPair(o', x, a'.intent, y, b'.intent);
  }

  lemma ConflictIsPositive(o: Oracle, resolve: Resolver, a: Claim, b: Claim, v: Verdict)
    requires IsVerdict(o, resolve, a, b, v)
    ensures Strength(v) >= 0.0
  {
    if v.conflict {
      var x, y :| IsPair(o, resolve, a, b, x, y, v);
    }
  }

  /** A conflict is never lost or weakened by further edges, call-graph facts,
      imports or scope entries. */
  lemma VerdictIsMonotone(o: Oracle, o': Oracle, resolve: Resolver, more: Resolver, a: Claim, b: Claim, a': Claim, b': Claim, v: Verdict, v': Verdict)
    requires KnowsMore(o, o') && a'.intent == a.intent && b'.intent == b.intent
    requires ResolvesMore(resolve, a.scope, more, a'.scope) && ResolvesMore(resolve, b.scope, more, b'.scope)
    requires IsVerdict(o, resolve, a, b, v) && IsVerdict(o', more, a', b', v')
    ensures Strength(v) <= Strength(v')
  {
    ConflictIsPositive(o', more, a', b', v');
    if v.conflict {
      var x, y, w := ConflictRemains(o, o', resolve, more, a, b, a', b', v);
      PairBoundsVerdict(o', more, a', b', x, y, w, v');
    }
  }

  lemma PairBoundsVerdict(o: Oracle, resolve: Resolver, a: Claim, b: Claim, x: Entity, y: Entity, w: Verdict, v: Verdict)
    requires IsVerdict(o, resolve, a, b, v) && IsPair(o, resolve, a, b, x, y, w) && w.conflict
    ensures v.conflict && w.confidence <= v.confidence
  {
  }

  // ---------------------------------------------------------------- the loops

  method EntitiesFor(resolve: Resolver, scope: seq<string>) returns (out: seq<Entity>)
    ensures out == Entities(resolve, scope, |scope|)
  {
    out := [];
    for i := 0 to |scope|
      invariant out == Entities(resolve, scope, i)
    {
      var r := resolve(scope[i]);
      if r.None? {
        continue;
      }
      out := out + [r.value];
    }
  }

  /** `best` is a strongest conflict of the pairs that satisfy `seen`. */
  ghost predicate IsBest(o: Oracle, a: Claim, b: Claim, seen: (Entity, Entity) -> bool, best: Option<Verdict>) {
    && (best.Some? ==> best.value.conflict && exists x, y :: seen(x, y) && AssessPair(o, x, a.intent, y, b.intent) == best.value)
    && forall x, y :: seen(x, y) && AssessPair(o, x, a.intent, y, b.intent).conflict ==>
         best.Some? && AssessPair(o, x, a.intent, y, b.intent).confidence <= best.value.confidence
  }

  lemma BestGrows(o: Oracle, a: Claim, b: Claim, seen: (Entity, Entity) -> bool, best: Option<Verdict>, x: Entity, y: Entity,
                  seen': (Entity, Entity) -> bool, best': Option<Verdict>)
    requires IsBest(o, a, b, seen, best) && forall p, q :: seen'(p, q) <==> seen(p, q) || (p == x && q == y)
    requires var v := AssessPair(o, x, a.intent, y, b.intent);
      best' == if v.conflict && (best.None? || v.confidence > best.value.confidence) then Some(v) else best
    ensures IsBest(o, a, b, seen', best')
  {
    if best'.Some? {
      if best' == best {
        var p, q :| seen(p, q) && AssessPair(o, p, a.intent, q, b.intent) == best.value;
        assert seen'(p, q);
      } else {
        assert seen'(x, y);
      }
    }
  }

  /** The first `i` rows of pairs and the first `j` pairs of the next row. */
  ghost function SeenAt(xs: seq<Entity>, ys: seq<Entity>, i: nat, j: nat): (Entity, Entity) -> bool
    requires i <= |xs| && j <= |ys|
  {
    (x, y) => (x in xs[..i] && y in ys) || (i < |xs| && x == xs[i] && y in ys[..j])
  }

  lemma NextPair(o: Oracle, a: Claim, b: Claim, xs: seq<Entity>, ys: seq<Entity>, i: nat, j: nat, best: Option<Verdict>, best': Option<Verdict>)
    requires i < |xs| && j < |ys| && IsBest(o, a, b, SeenAt(xs, ys, i, j), best)
    requires var v := AssessPair(o, xs[i], a.intent, ys[j], b.intent);
      best' == if v.conflict && (best.None? || v.confidence > best.value.confidence) then Some(v) else best
    ensures IsBest(o, a, b, SeenAt(xs, ys, i, j + 1), best')
  {
    assert ys[..j + 1] == ys[..j] + [ys[j]];
    BestGrows(o, a, b, SeenAt(xs, ys, i, j), best, xs[i], ys[j], SeenAt(xs, ys, i, j + 1), best');
  }

  lemma NextRow(o: Oracle, a: Claim, b: Claim, xs: seq<Entity>, ys: seq<Entity>, i: nat, best: Option<Verdict>)
    requires i < |xs| && IsBest(o, a, b, SeenAt(xs, ys, i, |ys|), best)
    ensures IsBest(o, a, b, SeenAt(xs, ys, i + 1, 0), best)
  {
    assert xs[..i + 1] == xs[..i] + [xs[i]] && ys[..|ys|] == ys;
    SameSeen(o, a, b, SeenAt(xs, ys, i, |ys|), SeenAt(xs, ys, i + 1, 0), best);
  }

  lemma BestAtEnd(o: Oracle, resolve: Resolver, a: Claim, b: Claim, xs: seq<Entity>, ys: seq<Entity>, best: Option<Verdict>)
    requires xs == Entities(resolve, a.scope, |a.scope|) && ys == Entities(resolve, b.scope, |b.scope|) && xs != [] && ys != []
    requires IsBest(o, a, b, SeenAt(xs, ys, |xs|, 0), best)
    ensures IsVerdict(o, resolve, a, b, if best.Some? then best.value else Verdict(false, 0.7))
  {
    ScopeElements(resolve, a.scope, xs);
    ScopeElements(resolve, b.scope, ys);
    assert xs[0] in xs && ys[0] in ys && xs[..|xs|] == xs;
    BestIsVerdict(o, resolve, a, b, SeenAt(xs, ys, |xs|, 0), best);
  }

  lemma NothingResolves(o: Oracle, resolve: Resolver, a: Claim, b: Claim)
    requires Entities(resolve, a.scope, |a.scope|) == [] || Entities(resolve, b.scope, |b.scope|) == []
    ensures IsVerdict(o, resolve, a, b, Verdict(false, 0.0))
  {
    ScopeElements(resolve, a.scope, Entities(resolve, a.scope, |a.scope|));
    ScopeElements(resolve, b.scope, Entities(resolve, b.scope, |b.scope|));
  }

  method Assess(o: Oracle, resolve: Resolver, incoming: Claim, adjacent: Claim) returns (v: Verdict)
    ensures IsVerdict(o, resolve, incoming, adjacent, v)
  {
    var xs := EntitiesFor(resolve, incoming.scope);
    var ys := EntitiesFor(resolve, adjacent.scope);
    if |xs| == 0 || |ys| == 0 {
      NothingResolves(o, resolve, incoming, adjacent);
      return Verdict(false, 0.0);
    }
    var best: Option<Verdict> := None;
    for i := 0 to |xs|
      invariant IsBest(o, incoming, adjacent, SeenAt(xs, ys, i, 0), best)
    {
      for j := 0 to |ys|
        invariant IsBest(o, incoming, adjacent, SeenAt(xs, ys, i, j), best)
      {
        ghost var before := best;
        var w := AssessPair(o, xs[i], incoming.intent, ys[j], adjacent.intent);
        if w.conflict && (best.None? || w.confidence > best.value.confidence) {
          best := Some(w);
        }
        NextPair(o, incoming, adjacent, xs, ys, i, j, before, best);
      }
      NextRow(o, incoming, adjacent, xs, ys, i, best);
    }
    BestAtEnd(o, resolve, incoming, adjacent, xs, ys, best);
    v := if best.Some? then best.value else Verdict(false, 0.7);
  }

  lemma ScopeElements(resolve: Resolver, scope: seq<string>, es: seq<Entity>)
    requires es == Entities(resolve, scope, |scope|)
    ensures forall e :: e in es <==> InScope(resolve, scope, e)
  {
    EntitiesAreScope(resolve, scope, |scope|);
    assert scope[..|scope|] == scope;
  }

  lemma SameSeen(o: Oracle, a: Claim, b: Claim, seen: (Entity, Entity) -> bool, seen': (Entity, Entity) -> bool, best: Option<Verdict>)
    requires IsBest(o, a, b, seen, best) && forall x, y :: seen(x, y) <==> seen'(x, y)
    ensures IsBest(o, a, b, seen', best)
  {
    if best.Some? {
      var x, y :| seen(x, y) && AssessPair(o, x, a.intent, y, b.intent) == best.value;
      assert seen'(x, y);
    }
  }

  lemma BestIsVerdict(o: Oracle, resolve: Resolver, a: Claim, b: Claim, seen: (Entity, Entity) -> bool, best: Option<Verdict>)
    requires IsBest(o, a, b, seen, best) && Resolves(resolve, a.scope) && Resolves(resolve, b.scope)
    requires forall x, y :: seen(x, y) <==> InScope(resolve, a.scope, x) && InScope(resolve, b.scope, y)
    ensures IsVerdict(o, resolve, a, b, if best.Some? then best.value else Verdict(false, 0.7))
  {
    if best.Some? {
      var x, y :| seen(x, y) && AssessPair(o, x, a.intent, y, b.intent) == best.value;
      assert IsPair(o, resolve, a, b, x, y, best.value);
    }
    forall x, y, w | IsPair(o, resolve, a, b, x, y, w) && w.conflict
      ensures best.Some? && w.confidence <= best.value.confidence
    {
      assert seen(x, y);
    }
  }

  // ---------------------------------------------------------------- the edge index in production

  method DbDependsOn(db: Neighbors.Db, source: string, target: string) returns (r: bool)
    ensures r <==> (exists e :: e in db.outgoing(source) && e.dst == target) || (exists e :: e in db.incoming(source) && e.src == target)
  {
    var edges := db.outgoing(source);
    for i := 0 to |edges|
      invariant forall j :: 0 <= j < i ==> edges[j].dst != target
    {
      if edges[i].dst == target {
        assert edges[i] in db.outgoing(source);
        return true;
      }
    }
    edges := db.incoming(source);
    for i := 0 to |edges|
      invariant forall j :: 0 <= j < i ==> edges[j].src != target
    {
      if edges[i].src == target {
        assert edges[i] in db.incoming(source);
        return true;
      }
    }
    return false;
  }

  /** The index that the database answers. */
  ghost predicate IsDbIndex(rows: iset<Neighbors.Edge>, index: (string, string) -> bool) {
    forall s, t :: index(s, t) <==> Neighbors.Joined(rows, s, t)
  }

  lemma DbIndexMeans(rows: iset<Neighbors.Edge>, db: Neighbors.Db, s: string, t: string)
    requires Neighbors.Serves(db, rows)
    ensures (exists e :: e in db.outgoing(s) && e.dst == t) || (exists e :: e in db.incoming(s) && e.src == t) <==> Neighbors.Joined(rows, s, t)
  {
    if e :| e in rows && ((e.src == s && e.dst == t) || (e.src == t && e.dst == s)) {
      assert e in db.outgoing(s) || e in db.incoming(s);
    }
    if e :| e in db.outgoing(s) && e.dst == t {
      assert e in rows;
    }
    if e :| e in db.incoming(s) && e.src == t {
      assert e in rows;
    }
  }

  /** In production the index forgets the direction of an edge, so an edit of
      either end's contract blocks, also that of the end nobody depends on. */
  lemma ProductionForgetsDirection(o: Oracle, rows: iset<Neighbors.Edge>, a: Entity, intentA: string, b: Entity, intentB: string)
    requires o.callGraph == None && a.imports == {} && b.imports == {} && a.id != b.id
    requires o.edgeIndex.Some? && IsDbIndex(rows, o.edgeIndex.value)
    ensures AssessPair(o, a, intentA, b, intentB) == Verdict(true, 0.85) <==>
      Neighbors.Joined(rows, a.id, b.id) && (ChangesContract(o, a, intentA) || ChangesContract(o, b, intentB))
  {
    PairMeans(o, a, intentA, b, intentB);
    assert Neighbors.Joined(rows, a.id, b.id) <==> Neighbors.Joined(rows, b.id, a.id);
    assert o.edgeIndex.value(a.id, b.id) <==> Neighbors.Joined(rows, a.id, b.id);
    assert o.edgeIndex.value(b.id, a.id) <==> Neighbors.Joined(rows, b.id, a.id);
  }
}
