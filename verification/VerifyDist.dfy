/** The reference walk over the built viewer (viewer/scripts/verify-dist.ts). */
module VerifyDist {
  /** A reference to a chunk, and the file that makes it. */
  datatype Ref = Ref(from: string, chunk: string)

  /** A page's path and the chunks its HTML names. */
  datatype Page = Page(path: string, chunks: seq<string>)

  /** The references that a chunk makes: its local imports. */
  type Imports = string -> seq<Ref>

  datatype Outcome =
    | NoPages
    | NoRefs
    | Broken(broken: seq<Ref>)
    | Fine(pages: nat, refCount: nat, reachable: nat)

  function RefsFrom(from: string, chunks: seq<string>): seq<Ref> {
    seq(|chunks|, i requires 0 <= i < |chunks| => Ref(from, chunks[i]))
  }

  /** The references of the first `n` pages. */
  function PageRefs(pages: seq<Page>, n: nat): seq<Ref>
    requires n <= |pages|
  {
    if n == 0 then [] else PageRefs(pages, n - 1) + RefsFrom(pages[n - 1].path, pages[n - 1].chunks)
  }

  /** `html` followed by the references of the first `n` chunks of `order`. */
  function AllRefs(imports: Imports, html: seq<Ref>, order: seq<string>, n: nat): seq<Ref>
    requires n <= |order|
  {
    if n == 0 then html else AllRefs(imports, html, order, n - 1) + imports(order[n - 1])
  }

  /** The references among the first `n` whose chunk does not exist, in order. */
  function Missing(assets: set<string>, refs: seq<Ref>, n: nat): seq<Ref>
    requires n <= |refs|
  {
    if n == 0 then [] else Missing(assets, refs, n - 1) + (if refs[n - 1].chunk in assets then [] else [refs[n - 1]])
  }

  /** Some of `refs` names `chunk`. */
  ghost predicate Names(refs: seq<Ref>, chunk: string) {
    exists i :: 0 <= i < |refs| && refs[i].chunk == chunk
  }

  /** `s` holds every existing chunk that the HTML or one of its own members names. */
  ghost predicate Closed(assets: set<string>, imports: Imports, html: seq<Ref>, s: set<string>) {
    && (forall c :: c in assets && Names(html, c) ==> c in s)
    && (forall b, c :: b in s && c in assets && Names(imports(b), c) ==> c in s)
  }

  function Members(order: seq<string>, n: nat): set<string>
    requires n <= |order|
  {
    if n == 0 then {} else Members(order, n - 1) + {order[n - 1]}
  }

  /** Each of the first `n` chunks of `order` exists, is new, and is named by what comes before it. */
  ghost predicate IsWalk(assets: set<string>, imports: Imports, html: seq<Ref>, order: seq<string>, n: nat)
    requires n <= |order|
  {
    n > 0 ==>
      && order[n - 1] in assets && order[n - 1] !in Members(order, n - 1)
      && Names(AllRefs(imports, html, order, n - 1), order[n - 1])
      && IsWalk(assets, imports, html, order, n - 1)
  }

  lemma {:induction false} MembersMeans(order: seq<string>, n: nat, c: string)
    requires n <= |order|
    ensures c in Members(order, n) <==> c in order[..n]
  {
    if n > 0 {
      MembersMeans(order, n - 1, c);
      assert order[..n] == order[..n - 1] + [order[n - 1]];
    }
  }

  /** A walk lists no chunk twice. */
  lemma {:induction false} WalkIsDistinct(assets: set<string>, imports: Imports, html: seq<Ref>, order: seq<string>, n: nat)
    requires n <= |order| && IsWalk(assets, imports, html, order, n)
    ensures |Members(order, n)| == n
  {
    if n > 0 {
      WalkIsDistinct(assets, imports, html, order, n - 1);
    }
  }

  lemma NamesConcat(a: seq<Ref>, b: seq<Ref>, c: string)
    ensures Names(a + b, c) <==> Names(a, c) || Names(b, c)
  {
    if Names(a, c) {
      var i :| 0 <= i < |a| && a[i].chunk == c;
      assert (a + b)[i].chunk == c;
    }
    if Names(b, c) {
      var i :| 0 <= i < |b| && b[i].chunk == c;
      assert (a + b)[|a| + i].chunk == c;
    }
  }

  /** What the references so far name was named by the HTML or by an earlier chunk. */
  lemma {:induction false} NamedByOrder(imports: Imports, html: seq<Ref>, order: seq<string>, n: nat, c: string)
    requires n <= |order|
    ensures Names(AllRefs(imports, html, order, n), c) <==>
      Names(html, c) || exists j :: 0 <= j < n && Names(imports(order[j]), c)
  {
    if n > 0 {
      NamedByOrder(imports, html, order, n - 1, c);
      NamesConcat(AllRefs(imports, html, order, n - 1), imports(order[n - 1]), c);
    }
  }

  lemma {:induction false} WalkStaysInClosed(assets: set<string>, imports: Imports, html: seq<Ref>, order: seq<string>, s: set<string>, n: nat)
    requires n <= |order| && IsWalk(assets, imports, html, order, n) && Closed(assets, imports, html, s)
    ensures forall k :: 0 <= k < n ==> order[k] in s
  {
    if n > 0 {
      WalkStaysInClosed(assets, imports, html, order, s, n - 1);
      NamedByOrder(imports, html, order, n - 1, order[n - 1]);
    }
  }

  lemma {:induction false} AllRefsPrefix(imports: Imports, html: seq<Ref>, order: seq<string>, more: seq<string>, n: nat)
    requires n <= |order|
    ensures AllRefs(imports, html, order + more, n) == AllRefs(imports, html, order, n)
  {
    if n > 0 {
      AllRefsPrefix(imports, html, order, more, n - 1);
    }
  }

  lemma {:induction false} MissingPrefix(assets: set<string>, refs: seq<Ref>, more: seq<Ref>, n: nat)
    requires n <= |refs|
    ensures Missing(assets, refs + more, n) == Missing(assets, refs, n)
  {
    if n > 0 {
      MissingPrefix(assets, refs, more, n - 1);
    }
  }

  /** The summed import counts of the first `n` chunks. */
  function ImportCount(imports: Imports, order: seq<string>, n: nat): nat
    requires n <= |order|
  {
    if n == 0 then 0 else ImportCount(imports, order, n - 1) + |imports(order[n - 1])|
  }

  lemma {:induction false} AllRefsCount(imports: Imports, html: seq<Ref>, order: seq<string>, n: nat)
    requires n <= |order|
    ensures |AllRefs(imports, html, order, n)| == |html| + ImportCount(imports, order, n)
  {
    if n > 0 {
      AllRefsCount(imports, html, order, n - 1);
    }
  }

  lemma {:induction false} NothingMissing(assets: set<string>, refs: seq<Ref>, n: nat)
    requires n <= |refs|
    ensures Missing(assets, refs, n) == [] <==> forall i :: 0 <= i < n ==> refs[i].chunk in assets
  {
    if n > 0 {
      NothingMissing(assets, refs, n - 1);
    }
  }

  lemma {:induction false} WalkPrefix(assets: set<string>, imports: Imports, html: seq<Ref>, order: seq<string>, more: seq<string>, n: nat)
    requires n <= |order| && IsWalk(assets, imports, html, order, n)
    ensures IsWalk(assets, imports, html, order + more, n)
  {
    if n > 0 {
      var c := order[n - 1];
      WalkPrefix(assets, imports, html, order, more, n - 1);
      AllRefsPrefix(imports, html, order, more, n - 1);
      MembersMeans(order, n - 1, c);
      MembersMeans(order + more, n - 1, c);
      assert (order + more)[..n - 1] == order[..n - 1];
    }
  }

  lemma WalkGrows(assets: set<string>, imports: Imports, html: seq<Ref>, order: seq<string>, chunk: string)
    requires IsWalk(assets, imports, html, order, |order|) && chunk in assets && chunk !in order
    requires Names(AllRefs(imports, html, order, |order|), chunk)
    ensures IsWalk(assets, imports, html, order + [chunk], |order| + 1)
    ensures AllRefs(imports, html, order + [chunk], |order| + 1) == AllRefs(imports, html, order, |order|) + imports(chunk)
  {
    WalkPrefix(assets, imports, html, order, [chunk], |order|);
    AllRefsPrefix(imports, html, order, [chunk], |order|);
    MembersMeans(order + [chunk], |order|, chunk);
    assert (order + [chunk])[..|order|] == order;
  }

  /** The loop's reference list is known to be complete. */
  lemma EndIsClosed(assets: set<string>, imports: Imports, html: seq<Ref>, order: seq<string>, done: seq<Ref>, checked: set<string>)
    requires done == AllRefs(imports, html, order, |order|) && (forall c :: c in checked <==> c in order)
    requires forall i :: 0 <= i < |done| && done[i].chunk in assets ==> done[i].chunk in checked
    ensures Closed(assets, imports, html, checked)
  {
    forall c | c in assets && (Names(html, c) || exists b :: b in checked && Names(imports(b), c))
      ensures c in checked
    {
      NamedByOrder(imports, html, order, |order|, c);
      if !Names(html, c) {
        var b :| b in checked && Names(imports(b), c);
        var j :| 0 <= j < |order| && order[j] == b;
      }
      assert Names(done, c);
    }
  }

  /** `checked` is the least closed set, and it was reached in `order`. */
  ghost predicate IsLeast(assets: set<string>, imports: Imports, html: seq<Ref>, order: seq<string>, checked: set<string>) {
    && IsWalk(assets, imports, html, order, |order|) && (forall c :: c in checked <==> c in order)
    && Closed(assets, imports, html, checked)
    && forall s :: Closed(assets, imports, html, s) ==> checked <= s
  }

  lemma EndIsLeast(assets: set<string>, imports: Imports, html: seq<Ref>, order: seq<string>, done: seq<Ref>, checked: set<string>)
    requires IsWalk(assets, imports, html, order, |order|)
    requires done == AllRefs(imports, html, order, |order|) && (forall c :: c in checked <==> c in order)
    requires forall i :: 0 <= i < |done| && done[i].chunk in assets ==> done[i].chunk in checked
    ensures IsLeast(assets, imports, html, order, checked)
    ensures |checked| == |order|
  {
    EndIsClosed(assets, imports, html, order, done, checked);
    forall s | Closed(assets, imports, html, s)
      ensures checked <= s
    {
      WalkStaysInClosed(assets, imports, html, order, s, |order|);
    }
    WalkIsDistinct(assets, imports, html, order, |order|);
    forall c
      ensures c in checked <==> c in Members(order, |order|)
    {
      MembersMeans(order, |order|, c);
      assert order[..|order|] == order;
    }
    assert checked == Members(order, |order|);
  }

  /** `checked` is the least closed set, every reference is counted once, and the
      missing ones are listed in the order in which the walk meets them. */
  ghost predicate IsCheck(assets: set<string>, imports: Imports, html: seq<Ref>, order: seq<string>,
                          refCount: nat, broken: seq<Ref>, checked: set<string>) {
    var refs := AllRefs(imports, html, order, |order|);
    && IsLeast(assets, imports, html, order, checked) && |checked| == |order|
    && refCount == |html| + ImportCount(imports, order, |order|)
    && broken == Missing(assets, refs, |refs|)
  }

  /** Between two rounds: `done` has been looked at, `queue` has not. */
  ghost predicate Walking(assets: set<string>, imports: Imports, html: seq<Ref>, order: seq<string>,
                          done: seq<Ref>, queue: seq<Ref>, checked: set<string>) {
    && done + queue == AllRefs(imports, html, order, |order|)
    && IsWalk(assets, imports, html, order, |order|)
    && (forall c :: c in checked <==> c in order) && checked <= assets
    && forall i :: 0 <= i < |done| && done[i].chunk in assets ==> done[i].chunk in checked
  }

  lemma PassRef(assets: set<string>, imports: Imports, html: seq<Ref>, order: seq<string>,
                done: seq<Ref>, queue: seq<Ref>, checked: set<string>)
    requires Walking(assets, imports, html, order, done, queue, checked) && queue != []
    requires queue[0].chunk in assets ==> queue[0].chunk in checked
    ensures Walking(assets, imports, html, order, done + [queue[0]], queue[1..], checked)
  {
    ShiftOne(assets, done, queue);
  }

  lemma EnterChunk(assets: set<string>, imports: Imports, html: seq<Ref>, order: seq<string>,
                   done: seq<Ref>, queue: seq<Ref>, checked: set<string>, chunk: string)
    requires Walking(assets, imports, html, order, done, queue, checked) && queue != []
    requires chunk == queue[0].chunk && chunk in assets && chunk !in checked
    ensures Walking(assets, imports, html, order + [chunk], done + [queue[0]], queue[1..] + imports(chunk), checked + {chunk})
  {
    ShiftOne(assets, done, queue);
    WalkGrows(assets, imports, html, order, chunk);
    assert done + [queue[0]] + (queue[1..] + imports(chunk)) == done + [queue[0]] + queue[1..] + imports(chunk);
  }

  method CheckRefs(assets: set<string>, imports: Imports, html: seq<Ref>)
    returns (refCount: nat, broken: seq<Ref>, checked: set<string>)
    ensures exists order :: IsCheck(assets, imports, html, order, refCount, broken, checked)
  {
    ghost var order: seq<string> := [];
    var queue := html;
    refCount, broken, checked := 0, [], {};
    ghost var done: seq<Ref> := [];
    assert done + queue == html;
    while |queue| > 0
      invariant Walking(assets, imports, html, order, done, queue, checked)
      invariant refCount == |done| && broken == Missing(assets, done, |done|)
      decreases assets - checked, |queue|
    {
      var r := queue[0];
      ghost var seen, left := done, queue;
      ShiftOne(assets, done, queue);
      queue, done := queue[1..], done + [r];
      refCount := refCount + 1;
      if r.chunk !in assets {
        broken := broken + [r];
        PassRef(assets, imports, html, order, seen, left, checked);
        continue;
      }
      if r.chunk in checked {
        PassRef(assets, imports, html, order, seen, left, checked);
        continue;
      }
      EnterChunk(assets, imports, html, order, seen, left, checked, r.chunk);
      checked, order := checked + {r.chunk}, order + [r.chunk];
      queue := queue + imports(r.chunk);
    }
    assert done + queue == done;
    EndIsCheck(assets, imports, html, order, done, refCount, broken, checked);
  }

  lemma EndIsCheck(assets: set<string>, imports: Imports, html: seq<Ref>, order: seq<string>, done: seq<Ref>,
                   refCount: nat, broken: seq<Ref>, checked: set<string>)
    requires IsWalk(assets, imports, html, order, |order|) && (forall c :: c in checked <==> c in order)
    requires done == AllRefs(imports, html, order, |order|)
    requires forall i :: 0 <= i < |done| && done[i].chunk in assets ==> done[i].chunk in checked
    requires refCount == |done| && broken == Missing(assets, done, |done|)
    ensures IsCheck(assets, imports, html, order, refCount, broken, checked)
  {
    AllRefsCount(imports, html, order, |order|);
    EndIsLeast(assets, imports, html, order, done, checked);
  }

  lemma ShiftOne(assets: set<string>, done: seq<Ref>, queue: seq<Ref>)
    requires queue != []
    ensures done + queue == done + [queue[0]] + queue[1..] && Names(done + queue, queue[0].chunk)
    ensures Missing(assets, done + [queue[0]], |done| + 1)
         == Missing(assets, done, |done|) + if queue[0].chunk in assets then [] else [queue[0]]
  {
    assert (done + queue)[|done|] == queue[0];
    MissingPrefix(assets, done, [queue[0]], |done|);
  }

  /** Success means that every reference from the HTML or from a reachable chunk exists. */
  ghost predicate IsResult(assets: set<string>, imports: Imports, pages: nat, html: seq<Ref>, order: seq<string>, checked: set<string>, outcome: Outcome) {
    var refs := AllRefs(imports, html, order, |order|);
    && IsLeast(assets, imports, html, order, checked)
    && (outcome.Fine? <==> forall i :: 0 <= i < |refs| ==> refs[i].chunk in assets)
    && (outcome.Fine? ==> outcome == Fine(pages, |html| + ImportCount(imports, order, |order|), |checked|))
    && (!outcome.Fine? ==> outcome == Broken(Missing(assets, refs, |refs|)))
  }

  ghost predicate HasResult(assets: set<string>, imports: Imports, pages: nat, html: seq<Ref>, outcome: Outcome) {
    exists order, checked :: IsResult(assets, imports, pages, html, order, checked, outcome)
  }

  method VerifyDist(pages: seq<Page>, assets: set<string>, localImports: string -> seq<string>) returns (outcome: Outcome)
    ensures outcome.NoPages? <==> pages == []
    ensures outcome.NoRefs? <==> pages != [] && PageRefs(pages, |pages|) == []
    ensures outcome.Fine? || outcome.Broken? ==>
      HasResult(assets, chunk => RefsFrom("_a/" + chunk, localImports(chunk)), |pages|, PageRefs(pages, |pages|), outcome)
  {
    var queue: seq<Ref> := [];
    for i := 0 to |pages|
      invariant queue == PageRefs(pages, i)
    {
      queue := queue + RefsFrom(pages[i].path, pages[i].chunks);
    }
    if |pages| == 0 {
      return NoPages;
    }
    if |queue| == 0 {
      return NoRefs;
    }
    var imports := chunk => RefsFrom("_a/" + chunk, localImports(chunk));
    var refCount, broken, checked := CheckRefs(assets, imports, queue);
    outcome := if |broken| > 0 then Broken(broken) else Fine(|pages|, refCount, |checked|);
    CheckDecides(assets, imports, |pages|, queue, refCount, broken, checked, outcome);
  }

  lemma CheckDecides(assets: set<string>, imports: Imports, pages: nat, html: seq<Ref>, refCount: nat, broken: seq<Ref>, checked: set<string>, outcome: Outcome)
    requires exists order :: IsCheck(assets, imports, html, order, refCount, broken, checked)
    requires outcome == if |broken| > 0 then Broken(broken) else Fine(pages, refCount, |checked|)
    ensures HasResult(assets, imports, pages, html, outcome)
  {
    var order :| IsCheck(assets, imports, html, order, refCount, broken, checked);
    var refs := AllRefs(imports, html, order, |order|);
    NothingMissing(assets, refs, |refs|);
    assert IsResult(assets, imports, pages, html, order, checked, outcome);
  }
}
