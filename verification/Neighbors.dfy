/** The breadth-first neighborhood walk (daemon/src/cli/neighbors.ts), against
    undirected distance over the edge table. */
module Neighbors {
  import opened Common

  datatype Edge = Edge(src: string, dst: string, kind: string, weight: int)

  /** The two queries of the edge table, each in whatever order it answers. */
  datatype Db = Db(outgoing: string -> seq<Edge>, incoming: string -> seq<Edge>)

  predicate SameKey(e: Edge, f: Edge) {
    e.src == f.src && e.dst == f.dst && e.kind == f.kind
  }

  function MapKey(e: Edge): string {
    e.src + ['\0'] + e.dst + ['\0'] + e.kind
  }

  /** The table's primary key is (src, dst, kind), and no id holds a NUL. */
  ghost predicate IsTable(rows: iset<Edge>) {
    && (forall e, f :: e in rows && f in rows && SameKey(e, f) ==> e == f)
    && (forall e :: e in rows ==> NulFree(e.src) && NulFree(e.dst))
  }

  ghost predicate Serves(db: Db, rows: iset<Edge>) {
    && (forall id, e :: e in db.outgoing(id) <==> e in rows && e.src == id)
    && (forall id, e :: e in db.incoming(id) <==> e in rows && e.dst == id)
  }

  lemma MapKeyIsInjective(e: Edge, f: Edge)
    requires NulFree(e.src) && NulFree(f.src) && NulFree(e.dst) && NulFree(f.dst)
    ensures MapKey(e) == MapKey(f) <==> SameKey(e, f)
  {
    if MapKey(e) == MapKey(f) {
      var rest, rest' := e.dst + ['\0'] + e.kind, f.dst + ['\0'] + f.kind;
      assert MapKey(e) == e.src + ['\0'] + rest && MapKey(f) == f.src + ['\0'] + rest';
      FirstNul(e.src, rest, f.src, rest');
      FirstNul(e.dst, e.kind, f.dst, f.kind);
    }
  }

  /** `key` tells the rows apart. */
  ghost predicate Separates(key: Edge -> string, rows: iset<Edge>) {
    forall e, f :: e in rows && f in rows && key(e) == key(f) ==> e == f
  }

  lemma MapKeySeparates(rows: iset<Edge>)
    requires IsTable(rows)
    ensures Separates(MapKey, rows)
  {
    forall e, f | e in rows && f in rows && MapKey(e) == MapKey(f)
      ensures e == f
    {
      MapKeyIsInjective(e, f);
    }
  }

  // ---------------------------------------------------------------- distance

  ghost predicate Joined(rows: iset<Edge>, a: string, b: string) {
    exists e :: e in rows && ((e.src == a && e.dst == b) || (e.src == b && e.dst == a))
  }

  ghost predicate IsPath(rows: iset<Edge>, p: seq<string>) {
    forall i :: 0 <= i < |p| - 1 ==> Joined(rows, p[i], p[i + 1])
  }

  /** A path of at most `d` edges leads from `root` to `x`. */
  ghost predicate Within(rows: iset<Edge>, root: string, x: string, d: int) {
    exists p :: 0 < |p| <= d + 1 && p[0] == root && p[|p| - 1] == x && IsPath(rows, p)
  }

  /** `x` is the root or next to a node of `done`. */
  ghost predicate Reached(rows: iset<Edge>, root: string, done: set<string>, x: string) {
    x == root || exists y :: y in done && Joined(rows, y, x)
  }

  lemma WithinZero(rows: iset<Edge>, root: string, x: string)
    ensures Within(rows, root, x, 0) <==> x == root
    ensures !Within(rows, root, x, -1)
  {
    if x == root {
      assert IsPath(rows, [root]);
      assert [root][0] == root && [root][|[root]| - 1] == root;
    }
  }

  lemma WithinGrows(rows: iset<Edge>, root: string, x: string, y: string, d: nat)
    requires Within(rows, root, y, d) && Joined(rows, y, x)
    ensures Within(rows, root, x, d + 1)
  {
    var p :| 0 < |p| <= d + 1 && p[0] == root && p[|p| - 1] == y && IsPath(rows, p);
    var q := p + [x];
    assert q[0] == root && q[|q| - 1] == x;
    assert forall i :: 0 <= i < |q| - 1 ==> Joined(rows, q[i], q[i + 1]);
  }

  lemma WithinShrinks(rows: iset<Edge>, root: string, x: string, d: nat) returns (y: string)
    requires Within(rows, root, x, d + 1) && x != root
    ensures Within(rows, root, y, d) && Joined(rows, y, x)
  {
    var p :| 0 < |p| <= d + 2 && p[0] == root && p[|p| - 1] == x && IsPath(rows, p);
    var q := p[..|p| - 1];
    y := q[|q| - 1];
    assert q[0] == root && IsPath(rows, q);
    assert Joined(rows, p[|p| - 2], p[|p| - 1]);
  }

  /** If `done` is the ball of radius `d`, what it reaches is the ball of radius `d + 1`. */
  lemma BallGrows(rows: iset<Edge>, root: string, done: set<string>, d: nat, x: string)
    requires forall y :: y in done <==> Within(rows, root, y, d)
    ensures Reached(rows, root, done, x) <==> Within(rows, root, x, d + 1)
  {
    if x == root {
      WithinZero(rows, root, root);
    } else if Reached(rows, root, done, x) {
      var y :| y in done && Joined(rows, y, x);
      WithinGrows(rows, root, x, y, d);
    } else if Within(rows, root, x, d + 1) {
      var y := WithinShrinks(rows, root, x, d);
    }
  }

  // ---------------------------------------------------------------- the walk

  ghost predicate Distinct<T>(s: seq<T>) {
    forall i, j :: 0 <= i < j < |s| ==> s[i] != s[j]
  }

  ghost predicate Touches(e: Edge, done: set<string>) {
    e.src in done || e.dst in done
  }

  /** `found` lists, once each, the rows that touch `done`, under their keys. */
  ghost predicate Finds(key: Edge -> string, rows: iset<Edge>, done: set<string>, found: seq<Edge>, keys: set<string>) {
    && (forall e :: e in found <==> e in rows && Touches(e, done))
    && (forall k :: k in keys <==> exists e :: e in found && key(e) == k)
    && Distinct(found)
  }

  /** `visited` lists, once each, the ids that `done` reaches. */
  ghost predicate Visits(rows: iset<Edge>, root: string, done: set<string>, visited: seq<string>) {
    Distinct(visited) && forall x :: x in visited <==> Reached(rows, root, done, x)
  }

  /** One loop over an edge list: new rows are added under their keys and
      unvisited far ends are queued. */
  method Scan(key: Edge -> string, ghost rows: iset<Edge>, batch: seq<Edge>, far: Edge -> string,
              visited: seq<string>, next: seq<string>, found: seq<Edge>, keys: set<string>)
    returns (visited': seq<string>, next': seq<string>, found': seq<Edge>, keys': set<string>)
    requires Separates(key, rows) && Distinct(visited) && Distinct(found)
    requires (forall e :: e in found ==> e in rows) && (forall e :: e in batch ==> e in rows)
    requires forall k :: k in keys <==> exists e :: e in found && key(e) == k
    ensures forall x :: x in visited' <==> x in visited || exists e :: e in batch && far(e) == x
    ensures forall x :: x in next' <==> x in next || (x in visited' && x !in visited)
    ensures forall e :: e in found' <==> e in found || e in batch
    ensures forall k :: k in keys' <==> exists e :: e in found' && key(e) == k
    ensures Distinct(visited') && Distinct(found')
  {
    visited', next', found', keys' := visited, next, found, keys;
    for i := 0 to |batch|
      invariant forall x :: x in visited' <==> x in visited || exists e :: e in batch[..i] && far(e) == x
      invariant forall x :: x in next' <==> x in next || (x in visited' && x !in visited)
      invariant forall e :: e in found' <==> e in found || e in batch[..i]
      invariant forall k :: k in keys' <==> exists e :: e in found' && key(e) == k
      invariant Distinct(visited') && Distinct(found')
    {
      var e := batch[i];
      assert batch[..i + 1] == batch[..i] + [e];
      // A key that is already present holds this very row.
      if key(e) !in keys' {
        found', keys' := found' + [e], keys' + {key(e)};
      }
      if far(e) !in visited' {
        visited', next' := visited' + [far(e)], next' + [far(e)];
      }
    }
    assert batch[..|batch|] == batch;
  }

  /** One id of the frontier. */
  method Expand(key: Edge -> string, ghost rows: iset<Edge>, db: Db, ghost root: string, ghost done: set<string>, id: string,
                visited: seq<string>, next: seq<string>, found: seq<Edge>, keys: set<string>)
    returns (visited': seq<string>, next': seq<string>, found': seq<Edge>, keys': set<string>)
    requires Serves(db, rows) && Separates(key, rows)
    requires Visits(rows, root, done, visited)
    requires Finds(key, rows, done, found, keys)
    ensures Visits(rows, root, done + {id}, visited')
    ensures forall x :: x in next' <==> x in next || (x in visited' && x !in visited)
    ensures Finds(key, rows, done + {id}, found', keys')
  {
    visited', next', found', keys' := Scan(key, rows, db.outgoing(id), (e: Edge) => e.dst, visited, next, found, keys);
    visited', next', found', keys' := Scan(key, rows, db.incoming(id), (e: Edge) => e.src, visited', next', found', keys');
    forall x
      ensures x in visited' <==> Reached(rows, root, done + {id}, x)
    {
      NextReached(rows, db, root, done, id, x);
    }
  }

  lemma NextReached(rows: iset<Edge>, db: Db, root: string, done: set<string>, id: string, x: string)
    requires Serves(db, rows)
    ensures Reached(rows, root, done + {id}, x) <==>
      || Reached(rows, root, done, x)
      || (exists e :: e in db.outgoing(id) && e.dst == x)
      || (exists e :: e in db.incoming(id) && e.src == x)
  {
    if Joined(rows, id, x) {
      var e :| e in rows && ((e.src == id && e.dst == x) || (e.src == x && e.dst == id));
      assert e in db.outgoing(id) || e in db.incoming(id);
    }
    if e :| e in db.outgoing(id) && e.dst == x {
      assert e in rows;
      assert Joined(rows, id, x) && id in done + {id};
    }
    if e :| e in db.incoming(id) && e.src == x {
      assert e in rows;
      assert Joined(rows, id, x) && id in done + {id};
    }
  }

  /** How often `for (d = 0; d < depth; d++)` runs. */
  function Rounds(depth: real): (n: nat)
    ensures n as real >= depth && (n > 0 ==> (n - 1) as real < depth)
  {
    if depth <= 0.0 then 0 else -(-depth).Floor
  }

  /** `Math.min(5, Math.max(1, Number(flag) || 1))`; `None` stands for a flag that is not a number. */
  function CliDepth(flag: Option<real>): (depth: real)
    ensures 1.0 <= depth <= 5.0
    ensures flag.None? || flag.value <= 1.0 ==> depth == 1.0
    ensures flag.Some? && 1.0 <= flag.value <= 5.0 ==> depth == flag.value
    ensures flag.Some? && flag.value >= 5.0 ==> depth == 5.0
  {
    var n := if flag.None? || flag.value == 0.0 then 1.0 else flag.value;
    if n < 1.0 then 1.0 else if n > 5.0 then 5.0 else n
  }

  /** `x` is at a distance from `root` that the user asked for. */
  ghost predicate WithinDepth(rows: iset<Edge>, root: string, x: string, depth: real) {
    exists k: nat :: k as real <= depth && Within(rows, root, x, k)
  }

  // A chain of `n` calls, in which every distance up to `n` occurs.

  function Link(i: nat): (id: string)
    ensures |id| == i && NulFree(id)
  {
    seq(i, _ => 'a')
  }

  function Call(i: nat): Edge {
    Edge(Link(i), Link(i + 1), "calls", 1)
  }

  ghost function Chain(n: nat): iset<Edge> {
    iset i: nat | i < n :: Call(i)
  }

  function ChainDb(n: nat): Db {
    Db(id => if |id| < n && id == Link(|id|) then [Call(|id|)] else [],
       id => if 0 < |id| <= n && id == Link(|id|) then [Call(|id| - 1)] else [])
  }

  lemma ChainIsTable(n: nat)
    ensures IsTable(Chain(n)) && Serves(ChainDb(n), Chain(n))
  {
    forall e | e in Chain(n)
      ensures |e.src| < n && e == Call(|e.src|) && |e.dst| == |e.src| + 1
    {
      var i: nat :| i < n && e == Call(i);
    }
    forall i: nat | i < n
      ensures Call(i) in Chain(n)
    {
    }
  }

  lemma {:induction false} ChainReaches(n: nat, k: nat)
    requires k <= n
    ensures Within(Chain(n), Link(0), Link(k), k)
  {
    if k == 0 {
      WithinZero(Chain(n), Link(0), Link(0));
    } else {
      ChainReaches(n, k - 1);
      assert Call(k - 1) in Chain(n);
      WithinGrows(Chain(n), Link(0), Link(k), Link(k - 1), k - 1);
    }
  }

  lemma {:induction false} ChainIsLong(n: nat, x: string, d: nat)
    requires Within(Chain(n), Link(0), x, d)
    ensures |x| <= d
    decreases d
  {
    if d == 0 {
      WithinZero(Chain(n), Link(0), x);
    } else if x != Link(0) {
      var y := WithinShrinks(Chain(n), Link(0), x, d - 1);
      ChainIsLong(n, y, d - 1);
      var e :| e in Chain(n) && ((e.src == y && e.dst == x) || (e.src == x && e.dst == y));
      var i: nat :| i < n && e == Call(i);
    }
  }

  lemma ChainEndIsFar(n: nat, depth: real)
    requires depth < n as real
    ensures !WithinDepth(Chain(n), Link(0), Link(n), depth)
  {
    forall k: nat | k as real <= depth && Within(Chain(n), Link(0), Link(n), k)
      ensures false
    {
      ChainIsLong(n, Link(n), k);
    }
  }

  lemma RoundsExceed(depth: real)
    requires depth < 0.0 || depth != depth.Floor as real
    ensures depth < Rounds(depth) as real
  {
  }

  /** For a depth that is negative or not a whole number there are a table and a node beyond the
      depth that the walk still returns. */
  lemma FractionOvershoots(depth: real) returns (rows: iset<Edge>, db: Db, root: string, x: string)
    requires depth < 0.0 || depth != depth.Floor as real
    ensures IsTable(rows) && Serves(db, rows)
    ensures Within(rows, root, x, Rounds(depth)) && !WithinDepth(rows, root, x, depth)
  {
    var n := Rounds(depth);
    RoundsExceed(depth);
    rows, db, root, x := Chain(n), ChainDb(n), Link(0), Link(n);
    ChainIsTable(n);
    ChainReaches(n, n);
    ChainEndIsFar(n, depth);
  }

  /** The nodes that a walk returns are those within the depth, whatever the table,
      if and only if the depth is a whole number that is not negative. */
  lemma RoundsMatchDepth(depth: real)
    ensures (forall rows, root, x | IsTable(rows) ::
               Within(rows, root, x, Rounds(depth)) <==> WithinDepth(rows, root, x, depth))
       <==> depth >= 0.0 && depth == depth.Floor as real
  {
    if depth >= 0.0 && depth == depth.Floor as real {
      assert Rounds(depth) == depth.Floor;
    } else {
      var rows, db, root, x := FractionOvershoots(depth);
    }
  }

  /** Depth 1.5 shows neighbors of neighbors. */
  lemma FractionalDepthOvershoots()
    ensures Rounds(CliDepth(Some(1.5))) == 2
  {
  }

  method Walk(ghost rows: iset<Edge>, db: Db, root: string, depth: real) returns (nodes: seq<string>, edges: seq<Edge>)
    requires IsTable(rows) && Serves(db, rows)
    ensures Distinct(nodes) && forall x :: x in nodes <==> Within(rows, root, x, Rounds(depth))
    ensures Distinct(edges)
    ensures forall e :: e in edges <==>
      e in rows && (Within(rows, root, e.src, Rounds(depth) - 1) || Within(rows, root, e.dst, Rounds(depth) - 1))
  {
    var visited, frontier := [root], [root];
    var found: seq<Edge>, keys: set<string> := [], {};
    ghost var done: set<string> := {};
    var d := 0;
    MapKeySeparates(rows);
    forall x
      ensures (x in visited <==> Within(rows, root, x, 0)) && !Within(rows, root, x, -1)
    {
      WithinZero(rows, root, x);
    }
    while d as real < depth
      invariant d <= Rounds(depth)
      invariant forall x :: x in done <==> Within(rows, root, x, d - 1)
      invariant Visits(rows, root, done, visited)
      invariant forall x :: x in visited <==> Within(rows, root, x, d)
      invariant forall x :: x in frontier <==> x in visited && x !in done
      invariant Finds(MapKey, rows, done, found, keys)
      decreases Rounds(depth) - d
    {
      visited, frontier, found, keys, done := Round(rows, db, root, done, visited, frontier, found, keys);
      forall x
        ensures x in visited <==> Within(rows, root, x, d + 1)
      {
        BallGrows(rows, root, done, d, x);
      }
      d := d + 1;
    }
    nodes, edges := visited, found;
  }

  /** `done` and the first `n` ids of the frontier. */
  ghost function Grown(done: set<string>, frontier: seq<string>, n: nat): set<string>
    requires n <= |frontier|
  {
    if n == 0 then done else Grown(done, frontier, n - 1) + {frontier[n - 1]}
  }

  lemma {:induction false} GrownMeans(done: set<string>, frontier: seq<string>, n: nat)
    requires n <= |frontier|
    ensures forall x :: x in Grown(done, frontier, n) <==> x in done || x in frontier[..n]
  {
    if n > 0 {
      GrownMeans(done, frontier, n - 1);
      assert frontier[..n] == frontier[..n - 1] + [frontier[n - 1]];
    }
  }

  /** One round: the whole frontier is expanded. */
  method Round(ghost rows: iset<Edge>, db: Db, ghost root: string, ghost done: set<string>,
               visited: seq<string>, frontier: seq<string>, found: seq<Edge>, keys: set<string>)
    returns (visited': seq<string>, next: seq<string>, found': seq<Edge>, keys': set<string>, ghost done': set<string>)
    requires IsTable(rows) && Serves(db, rows) && Separates(MapKey, rows)
    requires Visits(rows, root, done, visited)
    requires forall x :: x in frontier <==> x in visited && x !in done
    requires forall x :: x in done ==> x in visited
    requires Finds(MapKey, rows, done, found, keys)
    ensures forall x :: x in done' <==> x in visited
    ensures Visits(rows, root, done', visited')
    ensures forall x :: x in next <==> x in visited' && x !in done'
    ensures Finds(MapKey, rows, done', found', keys')
  {
    visited', next, found', keys', done' := visited, [], found, keys, done;
    for i := 0 to |frontier|
      invariant done' == Grown(done, frontier, i)
      invariant Visits(rows, root, done', visited')
      invariant forall x :: x in next <==> x in visited' && x !in visited
      invariant forall x :: x in visited ==> x in visited'
      invariant Finds(MapKey, rows, done', found', keys')
    {
      visited', next, found', keys' := Expand(MapKey, rows, db, root, done', frontier[i], visited', next, found', keys');
      done' := done' + {frontier[i]};
    }
    GrownMeans(done, frontier, |frontier|);
    assert frontier[..|frontier|] == frontier;
  }
}
