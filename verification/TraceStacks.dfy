/** From sampled stacks to counts: call edges and per-test coverage
    (trace/go/collector.go and trace/go/coverage.go). Stacks are leaf first. */
module TraceStacks {
  import opened TraceCounts
  import opened TraceAggregators

  // ---------------------------------------------------------------- edges

  predicate IsEdge(caller: string, callee: string) {
    caller != "" && callee != "" && caller != callee
  }

  /** The edges among the first `n` adjacent pairs. */
  function Edges(names: seq<string>, n: nat): seq<(string, string)>
    requires n < |names| || n == 0
  {
    if n == 0 then []
    else Edges(names, n - 1) + (if IsEdge(names[n], names[n - 1]) then [(names[n], names[n - 1])] else [])
  }

  method EdgesFromNames(names: seq<string>) returns (edges: seq<(string, string)>)
    ensures edges == Edges(names, if |names| < 2 then 0 else |names| - 1)
  {
    edges := [];
    if |names| < 2 {
      return;
    }
    for i := 0 to |names| - 1
      invariant edges == Edges(names, i)
    {
      var callee, caller := names[i], names[i + 1];
      if caller == "" || callee == "" || caller == callee {
        continue;
      }
      edges := edges + [(caller, callee)];
    }
  }

  /** How often `callee` runs directly below `caller` among the first `n` adjacent pairs. */
  function Adjacent(names: seq<string>, n: nat, caller: string, callee: string): nat
    requires n < |names| || n == 0
  {
    if n == 0 then 0
    else Adjacent(names, n - 1, caller, callee) + (if names[n] == caller && names[n - 1] == callee then 1 else 0)
  }

  function PairsIn(names: seq<string>, caller: string, callee: string): nat {
    Adjacent(names, if |names| < 2 then 0 else |names| - 1, caller, callee)
  }

  // ---------------------------------------------------------------- test roots

  /** Parenthesis nesting after scanning from the end down to position `i`. */
  function Nesting(name: string, i: nat): nat
    requires i <= |name|
    decreases |name| - i
  {
    if i == |name| then 0
    else
      var inner := Nesting(name, i + 1);
      if name[i] == ')' then inner + 1 else if name[i] == '(' && inner > 0 then inner - 1 else inner
  }

  /** A dot outside parenthesized groups. */
  predicate IsCut(name: string, i: nat) {
    i < |name| && name[i] == '.' && Nesting(name, i + 1) == 0
  }

  /** The last cut among the first `n` positions, or -1. */
  function LastCut(name: string, n: nat): (i: int)
    requires n <= |name|
    ensures -1 <= i < n
  {
    if n == 0 then -1 else if IsCut(name, n - 1) then n - 1 else LastCut(name, n - 1)
  }

  function Leaf(name: string): string {
    name[LastCut(name, |name|) + 1..]
  }

  method SymbolLeaf(name: string) returns (leaf: string)
    ensures leaf == Leaf(name)
  {
    if name == "" {
      return "";
    }
    var depth := 0;
    for i := |name| downto 0
      invariant depth == Nesting(name, i)
      invariant LastCut(name, |name|) == LastCut(name, i)
    {
      match name[i] {
        case ')' => depth := depth + 1;
        case '(' =>
          if depth > 0 {
            depth := depth - 1;
          }
        case '.' =>
          if depth == 0 {
            return name[i + 1..];
          }
        case _ =>
      }
    }
    return name;
  }

  lemma {:induction false} NestingOfSuffix(prefix: string, s: string, i: nat)
    requires i <= |s|
    ensures Nesting(prefix + s, |prefix| + i) == Nesting(s, i)
    decreases |s| - i
  {
    if i < |s| {
      NestingOfSuffix(prefix, s, i + 1);
    }
  }

  lemma {:induction false} LastCutSkips(name: string, i: nat, n: nat)
    requires i < n <= |name| && IsCut(name, i) && forall j: nat :: i < j < n ==> !IsCut(name, j)
    ensures LastCut(name, n) == i
  {
    if i < n - 1 {
      LastCutSkips(name, i, n - 1);
    }
  }

  /** A leaf whose own dots all sit inside groups is found after any package path. */
  lemma LeafAfterPath(path: string, leaf: string)
    requires Nesting(leaf, 0) == 0 && forall i: nat :: i < |leaf| ==> !IsCut(leaf, i)
    ensures Leaf(path + "." + leaf) == leaf
  {
    var prefix := path + ".";
    var name := prefix + leaf;
    NestingOfSuffix(prefix, leaf, 0);
    assert name[|path|] == '.' && IsCut(name, |path|);
    forall j: nat | |path| < j < |name|
      ensures !IsCut(name, j)
    {
      NestingOfSuffix(prefix, leaf, j + 1 - |prefix|);
      assert name[j] == leaf[j - |prefix|];
      assert !IsCut(leaf, j - |prefix|);
    }
    LastCutSkips(name, |path|, |name|);
  }

  predicate IsTestLeaf(leaf: string) {
    && |leaf| >= 4 && leaf[..4] == "Test"
    && (|leaf| == 4 || leaf[4] == '_' || 'A' <= leaf[4] <= 'Z' || '0' <= leaf[4] <= '9')
  }

  predicate IsTest(name: string) {
    IsTestLeaf(Leaf(name))
  }

  /** The outermost test frame among the first `n`, or -1. */
  function Root(names: seq<string>, n: nat): (root: int)
    requires n <= |names|
    ensures -1 <= root < n
  {
    if n == 0 then -1 else if IsTest(names[n - 1]) then n - 1 else Root(names, n - 1)
  }

  lemma {:induction false} RootIsOutermostTest(names: seq<string>, n: nat)
    requires n <= |names|
    ensures Root(names, n) >= 0 ==> IsTest(names[Root(names, n)])
    ensures forall i :: Root(names, n) < i < n ==> !IsTest(names[i])
  {
    if n > 0 && !IsTest(names[n - 1]) {
      RootIsOutermostTest(names, n - 1);
    }
  }

  lemma TestIsNamed(names: seq<string>)
    requires Root(names, |names|) >= 0
    ensures names[Root(names, |names|)] != ""
  {
    RootIsOutermostTest(names, |names|);
  }

  method TestRootIndex(names: seq<string>) returns (root: int)
    ensures root == Root(names, |names|)
  {
    for i := |names| downto 0
      invariant Root(names, |names|) == Root(names, i)
    {
      var leaf := SymbolLeaf(names[i]);
      if IsTestLeaf(leaf) {
        return i;
      }
    }
    return -1;
  }

  // ---------------------------------------------------------------- coverage

  /** Frames other than `root` among the first `n` that are `entity`. */
  function OtherFrames(names: seq<string>, n: nat, root: int, entity: string): nat
    requires n <= |names|
  {
    if n == 0 then 0
    else OtherFrames(names, n - 1, root, entity) + (if n - 1 != root && names[n - 1] == entity then 1 else 0)
  }

  /** What the first `n` frames add to a coverage cell: one unit for every frame
      besides the test root, never to a blank cell nor to the test's own. */
  function Units(names: seq<string>, root: int, n: nat, k: CoverageKey): nat
    requires n <= |names| && root < |names|
  {
    if root >= 0 && k.test == names[root] && k.entity != "" && k.entity != k.test
    then OtherFrames(names, n, root, k.entity) else 0
  }

  function Covers(names: seq<string>, k: CoverageKey): nat {
    Units(names, Root(names, |names|), |names|, k)
  }

  /** One round of the loop over the frames. */
  lemma UnitsStep(names: seq<string>, root: int, i: nat, start: Counts<CoverageKey>, m: Counts<CoverageKey>, m': Counts<CoverageKey>)
    requires 0 <= root < |names| && i < |names| && names[root] != "" && Grew(start, m, k => Units(names, root, i, k))
    requires m' == if i == root || names[i] == "" || names[i] == names[root] then m
                   else Apply(KeepCoverage, m, Add(CoverageKey(names[root], names[i]), 1))
    ensures Grew(start, m', k => Units(names, root, i + 1, k))
  {
    var delta := k => Units(names, root, i + 1, k) - Units(names, root, i, k);
    if m' == m {
      GrewByZero(m, k => 0);
      GrewTwice(start, m, m, k => Units(names, root, i, k), k => 0, k => Units(names, root, i + 1, k));
    } else {
      ApplyGrows(KeepCoverage, m, Add(CoverageKey(names[root], names[i]), 1), delta);
      GrewTwice(start, m, m', k => Units(names, root, i, k), delta, k => Units(names, root, i + 1, k));
    }
  }

  lemma UnitsStart(names: seq<string>, root: int, start: Counts<CoverageKey>)
    requires root < |names|
    ensures Grew(start, start, k => Units(names, root, 0, k))
  {
    GrewByZero(start, k => Units(names, root, 0, k));
  }

  lemma UnitsEnd(names: seq<string>, start: Counts<CoverageKey>, m: Counts<CoverageKey>)
    requires Grew(start, m, k => Units(names, Root(names, |names|), |names|, k))
    ensures Grew(start, m, k => Covers(names, k))
  {
    GrewByZero(m, k => 0);
    GrewTwice(start, m, m, k => Units(names, Root(names, |names|), |names|, k), k => 0, k => Covers(names, k));
  }

  lemma NoRootNoUnits(names: seq<string>, start: Counts<CoverageKey>)
    requires Root(names, |names|) < 0
    ensures Grew(start, start, k => Covers(names, k))
  {
    GrewByZero(start, k => Covers(names, k));
  }

  method AddCoverage(agg: CoverageAggregator, names: seq<string>)
    modifies agg
    ensures Grew(old(agg.counts), agg.counts, k => Covers(names, k))
  {
    ghost var start := agg.counts;
    var root := TestRootIndex(names);
    if root < 0 {
      NoRootNoUnits(names, start);
      return;
    }
    var test := names[root];
    TestIsNamed(names);
    UnitsStart(names, root, start);
    for i := 0 to |names|
      invariant Grew(start, agg.counts, k => Units(names, root, i, k))
    {
      var entity := names[i];
      ghost var before := agg.counts;
      if i == root || entity == "" || entity == test {
        UnitsStep(names, root, i, start, before, before);
        continue;
      }
      agg.DoAdd(test, entity, 1);
      UnitsStep(names, root, i, start, before, agg.counts);
    }
    UnitsEnd(names, start, agg.counts);
  }

  /** Only the outermost test of a stack is a selector, and it never covers itself or a blank name. */
  lemma OnlyRootCovers(names: seq<string>, k: CoverageKey)
    requires Covers(names, k) > 0
    ensures k.entity != k.test && k.entity != "" && k.test != "" && IsTest(k.test)
    ensures var root := Root(names, |names|);
      root >= 0 && names[root] == k.test && exists j :: 0 <= j < |names| && j != root && names[j] == k.entity
  {
    var root := Root(names, |names|);
    RootIsOutermostTest(names, |names|);
    TestIsNamed(names);
    var j := SomeOtherFrame(names, |names|, root, k.entity);
  }

  lemma {:induction false} SomeOtherFrame(names: seq<string>, n: nat, root: int, entity: string) returns (j: nat)
    requires n <= |names| && OtherFrames(names, n, root, entity) > 0
    ensures j < n && j != root && names[j] == entity
  {
    if n - 1 != root && names[n - 1] == entity {
      j := n - 1;
    } else {
      j := SomeOtherFrame(names, n - 1, root, entity);
    }
  }

  lemma {:induction false} OtherFramesAreCounted(names: seq<string>, n: nat, root: int, entity: string)
    requires n <= |names| && (0 <= root < |names| ==> names[root] != entity)
    ensures OtherFrames(names, n, root, entity) == multiset(names[..n])[entity]
  {
    if n > 0 {
      OtherFramesAreCounted(names, n - 1, root, entity);
      assert names[..n] == names[..n - 1] + [names[n - 1]];
    }
  }

  /** A frame covers as often as it is in the stack, by the outermost test alone and not by itself. */
  lemma CoversMeans(names: seq<string>, k: CoverageKey)
    ensures Covers(names, k) ==
      if k.entity != "" && k.entity != k.test && IsOutermostTest(names, k.test) then multiset(names)[k.entity] else 0
  {
    var root := Root(names, |names|);
    RootIsOutermostTest(names, |names|);
    assert names[..|names|] == names;
    if root >= 0 && k.test == names[root] && k.entity != k.test {
      OtherFramesAreCounted(names, |names|, root, k.entity);
    }
    if i :| 0 <= i < |names| && names[i] == k.test && IsTest(names[i]) && forall j :: i < j < |names| ==> !IsTest(names[j]) {
      assert root == i;
    }
  }

  /** The name is that of the last test frame of the leaf-first stack. */
  ghost predicate IsOutermostTest(names: seq<string>, test: string) {
    exists i :: 0 <= i < |names| && names[i] == test && IsTest(names[i]) && forall j :: i < j < |names| ==> !IsTest(names[j])
  }

  lemma {:induction false} NoParens(s: string, i: nat)
    requires i <= |s| && forall k :: 0 <= k < |s| ==> s[k] != '(' && s[k] != ')'
    ensures Nesting(s, i) == 0
    decreases |s| - i
  {
    if i < |s| {
      NoParens(s, i + 1);
    }
  }

  /** After any package path, a plain name is a test if and only if it is `Test` followed by nothing, or by
      an upper-case letter, a digit or an underscore. */
  lemma TestNames(path: string, name: string)
    requires forall k :: 0 <= k < |name| ==> name[k] != '(' && name[k] != ')' && name[k] != '.'
    ensures IsTest(path + "." + name) <==>
      name == "Test" || exists c, rest :: name == "Test" + [c] + rest && (c == '_' || 'A' <= c <= 'Z' || '0' <= c <= '9')
  {
    NoParens(name, 0);
    LeafAfterPath(path, name);
    if IsTestLeaf(name) && name != "Test" {
      assert name == "Test" + [name[4]] + name[5..];
    }
    if c, rest :| name == "Test" + [c] + rest && (c == '_' || 'A' <= c <= 'Z' || '0' <= c <= '9') {
      assert name[..4] == "Test" && name[4] == c;
    }
  }

  // ---------------------------------------------------------------- one sample

  /** How often `k` is an edge of one stack. */
  function Pairs(names: seq<string>, k: CallKey): nat {
    if k.kind == "call" && IsEdge(k.src, k.dst) then PairsIn(names, k.src, k.dst) else 0
  }

  /** Call edges over the first `n` stacks. */
  function PairsOver(stacks: seq<seq<string>>, n: nat, k: CallKey): nat
    requires n <= |stacks|
  {
    if n == 0 then 0 else PairsOver(stacks, n - 1, k) + Pairs(stacks[n - 1], k)
  }

  /** Coverage units over the first `n` stacks. */
  function CoversOver(stacks: seq<seq<string>>, n: nat, k: CoverageKey): nat
    requires n <= |stacks|
  {
    if n == 0 then 0 else CoversOver(stacks, n - 1, k) + Covers(stacks[n - 1], k)
  }

  /** How often `k` is among the first `n` edges. */
  function EdgeCount(edges: seq<(string, string)>, n: nat, k: CallKey): nat
    requires n <= |edges|
  {
    if n == 0 then 0 else EdgeCount(edges, n - 1, k) + (if Edge(edges[n - 1]) == k then 1 else 0)
  }

  lemma {:induction false} EdgeCountExtends(edges: seq<(string, string)>, more: seq<(string, string)>, n: nat, k: CallKey)
    requires n <= |edges|
    ensures EdgeCount(edges + more, n, k) == EdgeCount(edges, n, k)
  {
    if n > 0 {
      EdgeCountExtends(edges, more, n - 1, k);
    }
  }

  lemma {:induction false} EdgesCountPairs(names: seq<string>, n: nat, k: CallKey)
    requires n < |names| || n == 0
    ensures EdgeCount(Edges(names, n), |Edges(names, n)|, k)
         == if k.kind == "call" && IsEdge(k.src, k.dst) then Adjacent(names, n, k.src, k.dst) else 0
  {
    if n > 0 {
      EdgesCountPairs(names, n - 1, k);
      var front, last := Edges(names, n - 1), (names[n], names[n - 1]);
      if !IsEdge(last.0, last.1) {
        assert Edges(names, n) == front;
      } else {
        EdgeCountExtends(front, [last], |front|, k);
        assert Edges(names, n) == front + [last] && (front + [last])[|front|] == last;
        assert EdgeCount(front + [last], |front| + 1, k) == EdgeCount(front, |front|, k) + if Edge(last) == k then 1 else 0;
      }
    }
  }

  lemma {:induction false} EdgesAreEdges(names: seq<string>, n: nat, i: nat)
    requires (n < |names| || n == 0) && i < |Edges(names, n)|
    ensures IsEdge(Edges(names, n)[i].0, Edges(names, n)[i].1)
  {
    if i < |Edges(names, n - 1)| {
      EdgesAreEdges(names, n - 1, i);
    }
  }

  /** One round of the loop over the edges. */
  lemma EdgeStep(edges: seq<(string, string)>, i: nat, start: Counts<CallKey>, m: Counts<CallKey>)
    requires i < |edges| && IsEdge(edges[i].0, edges[i].1) && Grew(start, m, k => EdgeCount(edges, i, k))
    ensures Grew(start, Apply(KeepCall, m, Add(Edge(edges[i]), 1)), k => EdgeCount(edges, i + 1, k))
  {
    var call, delta := Add(Edge(edges[i]), 1), k => EdgeCount(edges, i + 1, k) - EdgeCount(edges, i, k);
    ApplyGrows(KeepCall, m, call, delta);
    GrewTwice(start, m, Apply(KeepCall, m, call), k => EdgeCount(edges, i, k), delta, k => EdgeCount(edges, i + 1, k));
  }

  lemma EdgesEnd(names: seq<string>, edges: seq<(string, string)>, start: Counts<CallKey>, m: Counts<CallKey>)
    requires edges == Edges(names, if |names| < 2 then 0 else |names| - 1)
    requires Grew(start, m, k => EdgeCount(edges, |edges|, k))
    ensures Grew(start, m, k => Pairs(names, k))
  {
    forall k
      ensures EdgeCount(edges, |edges|, k) == Pairs(names, k)
    {
      EdgesCountPairs(names, if |names| < 2 then 0 else |names| - 1, k);
    }
    GrewByZero(m, k => 0);
    GrewTwice(start, m, m, k => EdgeCount(edges, |edges|, k), k => 0, k => Pairs(names, k));
  }

  /** The edge half of one stack of `sampleOnce`. */
  method AddEdges(agg: Aggregator, names: seq<string>)
    modifies agg
    ensures Grew(old(agg.counts), agg.counts, k => Pairs(names, k))
  {
    ghost var start := agg.counts;
    var edges := EdgesFromNames(names);
    GrewByZero(start, k => EdgeCount(edges, 0, k));
    for i := 0 to |edges|
      invariant Grew(start, agg.counts, k => EdgeCount(edges, i, k))
    {
      EdgesAreEdges(names, if |names| < 2 then 0 else |names| - 1, i);
      EdgeStep(edges, i, start, agg.counts);
      agg.DoAdd(edges[i].0, edges[i].1, 1);
    }
    EdgesEnd(names, edges, start, agg.counts);
  }

  /** One sample: every adjacent pair of every stack counts once, and so does
      every frame below a test. */
  method SampleOnce(agg: Aggregator, cov: CoverageAggregator, stacks: seq<seq<string>>)
    modifies agg, cov
    ensures Grew(old(agg.counts), agg.counts, k => PairsOver(stacks, |stacks|, k))
    ensures Grew(old(cov.counts), cov.counts, k => CoversOver(stacks, |stacks|, k))
  {
    ghost var calls, cells := agg.counts, cov.counts;
    GrewByZero(calls, k => PairsOver(stacks, 0, k));
    GrewByZero(cells, k => CoversOver(stacks, 0, k));
    for i := 0 to |stacks|
      invariant Grew(calls, agg.counts, k => PairsOver(stacks, i, k))
      invariant Grew(cells, cov.counts, k => CoversOver(stacks, i, k))
    {
      ghost var calls', cells' := agg.counts, cov.counts;
      AddEdges(agg, stacks[i]);
      AddCoverage(cov, stacks[i]);
      GrewTwice(calls, calls', agg.counts, k => PairsOver(stacks, i, k), k => Pairs(stacks[i], k), k => PairsOver(stacks, i + 1, k));
      GrewTwice(cells, cells', cov.counts, k => CoversOver(stacks, i, k), k => Covers(stacks[i], k), k => CoversOver(stacks, i + 1, k));
    }
  }
}
