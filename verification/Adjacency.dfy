/** Overlap and adjacency of claim scopes (daemon/src/conflict/adjacency.ts). */
module Adjacency {
  import opened Common

  datatype Claim = Claim(id: string, scope: seq<string>)

  /** Any lookup at all: it need not be symmetric. */
  type Neighbors = string -> seq<string>

  datatype Gate = ModuleOrEdge | EdgeOnly | Graph

  // ---------------------------------------------------------------- what the gates mean

  /** The lookup joins the two entities, asked from either side. */
  predicate Joined(n: Neighbors, x: string, y: string) {
    y in n(x) || x in n(y)
  }

  ghost predicate ShareNeighbor(n: Neighbors, x: string, y: string) {
    exists z :: z in n(x) && z in n(y)
  }

  predicate SameModule(x: string, y: string) {
    ModulePrefix(x).Some? && ModulePrefix(x) == ModulePrefix(y)
  }

  /** The pairs of entities that make two scopes adjacent. */
  ghost predicate Connects(gate: Gate, n: Neighbors, x: string, y: string) {
    match gate
    case EdgeOnly => Joined(n, x, y)
    case Graph => Joined(n, x, y) || ShareNeighbor(n, x, y)
    case ModuleOrEdge => Joined(n, x, y) || SameModule(x, y)
  }

  ghost predicate Adjacent(gate: Gate, a: seq<string>, b: seq<string>, n: Neighbors) {
    exists x, y :: x in a && y in b && Connects(gate, n, x, y)
  }

  /** Who registers first does not matter, even if the lookup is not symmetric. */
  lemma GatesAreSymmetric(gate: Gate, a: seq<string>, b: seq<string>, n: Neighbors)
    ensures Adjacent(gate, a, b, n) <==> Adjacent(gate, b, a, n)
  {
    if x, y :| x in a && y in b && Connects(gate, n, x, y) {
      assert Connects(gate, n, y, x);
    }
    if x, y :| x in b && y in a && Connects(gate, n, x, y) {
      assert Connects(gate, n, y, x);
    }
  }

  /** The strict gate selects no pair that the other two do not. */
  lemma EdgeGateIsStrictest(gate: Gate, a: seq<string>, b: seq<string>, n: Neighbors)
    requires Adjacent(EdgeOnly, a, b, n)
    ensures Adjacent(gate, a, b, n)
  {
    var x, y :| x in a && y in b && Connects(EdgeOnly, n, x, y);
    assert Connects(gate, n, x, y);
  }

  /** Enlarging a scope never loses an adjacency. */
  lemma GatesAreMonotone(gate: Gate, a: seq<string>, b: seq<string>, a': seq<string>, b': seq<string>, n: Neighbors)
    requires (forall x :: x in a ==> x in a') && (forall x :: x in b ==> x in b') && Adjacent(gate, a, b, n)
    ensures Adjacent(gate, a', b', n)
  {
  }

  // ---------------------------------------------------------------- modules

  /** The last `/` among the first `n` characters, or -1. */
  function LastSlash(id: string, n: nat): (i: int)
    requires n <= |id|
    ensures -1 <= i < n
  {
    if n == 0 then -1 else if id[n - 1] == '/' then n - 1 else LastSlash(id, n - 1)
  }

  function ModulePrefix(id: string): Option<string> {
    var slash := LastSlash(id, |id|);
    if slash <= 0 then None else Some(id[..slash])
  }

  /** An entity of a module has the module as its prefix. */
  lemma PrefixOfMember(m: string, name: string)
    requires m != "" && '/' !in name
    ensures ModulePrefix(m + "/" + name) == Some(m)
  {
    var id := m + "/" + name;
    assert forall j :: |m| < j < |id| ==> id[j] == name[j - |m| - 1];
    LastSlashSkips(id, |m|, |id|);
    assert id[..|m|] == m;
  }

  /** The default gate always selects two scopes that touch one module. */
  lemma ColocatedAreAdjacent(a: seq<string>, b: seq<string>, n: Neighbors, m: string, x: string, y: string)
    requires m != "" && '/' !in x && '/' !in y && m + "/" + x in a && m + "/" + y in b
    ensures Adjacent(ModuleOrEdge, a, b, n)
  {
    PrefixOfMember(m, x);
    PrefixOfMember(m, y);
    assert Connects(ModuleOrEdge, n, m + "/" + x, m + "/" + y);
  }

  lemma {:induction false} LastSlashSkips(id: string, i: nat, n: nat)
    requires i < n <= |id| && id[i] == '/' && forall j :: i < j < n ==> id[j] != '/'
    ensures LastSlash(id, n) == i
  {
    if i < n - 1 {
      LastSlashSkips(id, i, n - 1);
    }
  }

  /** A bare module id of two segments does have a prefix, unlike its comment says. */
  lemma BareModuleHasPrefix()
    ensures ModulePrefix("auth/login") == Some("auth")
  {
    PrefixOfMember("auth", "login");
    assert "auth" + "/" + "login" == "auth/login";
  }

  method ModulePrefixes(scope: seq<string>) returns (out: set<string>)
    ensures forall p :: p in out <==> exists x :: x in scope && ModulePrefix(x) == Some(p)
  {
    out := {};
    for i := 0 to |scope|
      invariant forall p :: p in out <==> exists x :: x in scope[..i] && ModulePrefix(x) == Some(p)
    {
      assert scope[..i + 1] == scope[..i] + [scope[i]];
      var p := ModulePrefix(scope[i]);
      if p.Some? {
        out := out + {p.value};
      }
    }
    assert scope[..|scope|] == scope;
  }

  method ShareModulePrefix(a: seq<string>, b: seq<string>) returns (shared: bool)
    ensures shared <==> exists x, y :: x in a && y in b && SameModule(x, y)
  {
    var aPrefixes := ModulePrefixes(a);
    if |aPrefixes| == 0 {
      return false;
    }
    var bPrefixes := ModulePrefixes(b);
    shared := exists p :: p in bPrefixes && p in aPrefixes;
  }

  // ---------------------------------------------------------------- the searches

  /** `x`'s neighbors that satisfy membership in `other`. */
  method AnyNeighborIn(scope: seq<string>, other: seq<string>, n: Neighbors) returns (found: bool)
    ensures found <==> exists x, y :: x in scope && y in other && y in n(x)
  {
    for i := 0 to |scope|
      invariant forall x, y :: x in scope[..i] && y in other ==> y !in n(x)
    {
      assert scope[..i + 1] == scope[..i] + [scope[i]];
      var list := n(scope[i]);
      for j := 0 to |list|
        invariant forall k :: 0 <= k < j ==> list[k] !in other
      {
        if list[j] in other {
          assert scope[i] in scope && list[j] in n(scope[i]);
          return true;
        }
      }
    }
    assert scope[..|scope|] == scope;
    return false;
  }

  method EdgeAdjacency(a: seq<string>, b: seq<string>, n: Neighbors) returns (joined: bool)
    ensures joined <==> Adjacent(EdgeOnly, a, b, n)
  {
    joined := AnyNeighborIn(a, b, n);
    if joined {
      ghost var x, y :| x in a && y in b && y in n(x);
      assert Connects(EdgeOnly, n, x, y);
      return;
    }
    joined := AnyNeighborIn(b, a, n);
    if joined {
      ghost var x, y :| x in b && y in a && y in n(x);
      assert Connects(EdgeOnly, n, y, x);
    }
  }

  /** The neighbors of a scope, without the scope itself. */
  method ScopeNeighbors(scope: seq<string>, n: Neighbors) returns (out: seq<string>)
    ensures forall z :: z in out <==> z !in scope && exists x :: x in scope && z in n(x)
    ensures forall i, j :: 0 <= i < j < |out| ==> out[i] != out[j]
  {
    out := [];
    for i := 0 to |scope|
      invariant forall z :: z in out <==> z !in scope && exists x :: x in scope[..i] && z in n(x)
      invariant forall i, j :: 0 <= i < j < |out| ==> out[i] != out[j]
    {
      assert scope[..i + 1] == scope[..i] + [scope[i]];
      var list := n(scope[i]);
      ghost var before := out;
      for j := 0 to |list|
        invariant forall z :: z in out <==> z in before || (z !in scope && z in list[..j])
        invariant forall i, j :: 0 <= i < j < |out| ==> out[i] != out[j]
      {
        assert list[..j + 1] == list[..j] + [list[j]];
        if list[j] !in scope && list[j] !in out {
          out := out + [list[j]];
        }
      }
      assert list[..|list|] == list;
    }
    assert scope[..|scope|] == scope;
  }

  /** A neighbor that both scopes look up, and that neither contains, or else a direct edge. */
  lemma SharedOutsideOrDirect(a: seq<string>, b: seq<string>, n: Neighbors)
    ensures Adjacent(Graph, a, b, n) <==>
      || Adjacent(EdgeOnly, a, b, n)
      || exists z, x, y :: z !in a && z !in b && x in a && y in b && z in n(x) && z in n(y)
  {
    if x, y :| x in a && y in b && Connects(Graph, n, x, y) {
      if Joined(n, x, y) {
        assert Connects(EdgeOnly, n, x, y);
      } else {
        var z :| z in n(x) && z in n(y);
        if z in a {
          assert Connects(EdgeOnly, n, z, y);
        } else if z in b {
          assert Connects(EdgeOnly, n, x, z);
        }
      }
    }
    if x, y :| x in a && y in b && Connects(EdgeOnly, n, x, y) {
      assert Connects(Graph, n, x, y);
    }
    if z, x, y :| z !in a && z !in b && x in a && y in b && z in n(x) && z in n(y) {
      assert ShareNeighbor(n, x, y) && Connects(Graph, n, x, y);
    }
  }

  /** Dropping each scope's own ids loses no connection. */
  method ScopesGraphConnected(a: seq<string>, b: seq<string>, n: Neighbors) returns (connected: bool)
    ensures connected <==> Adjacent(Graph, a, b, n)
  {
    SharedOutsideOrDirect(a, b, n);
    var direct := EdgeAdjacency(a, b, n);
    if direct {
      return true;
    }
    var aNeighbors := ScopeNeighbors(a, n);
    if |aNeighbors| == 0 {
      return false;
    }
    var bNeighbors := ScopeNeighbors(b, n);
    connected := exists z :: z in bNeighbors && z in aNeighbors;
  }

  method IsAdjacent(a: seq<string>, b: seq<string>, n: Neighbors) returns (adjacent: bool)
    ensures adjacent <==> Adjacent(ModuleOrEdge, a, b, n)
  {
    adjacent := EdgeAdjacency(a, b, n);
    if adjacent {
      EdgeGateIsStrictest(ModuleOrEdge, a, b, n);
      return;
    }
    adjacent := ShareModulePrefix(a, b);
    if adjacent {
      ghost var x, y :| x in a && y in b && SameModule(x, y);
      assert Connects(ModuleOrEdge, n, x, y);
    } else {
      forall x, y | x in a && y in b
        ensures !Connects(ModuleOrEdge, n, x, y)
      {
        assert !Connects(EdgeOnly, n, x, y) && !SameModule(x, y);
      }
    }
  }

  method GatePredicate(gate: Gate, a: seq<string>, b: seq<string>, n: Neighbors) returns (adjacent: bool)
    ensures adjacent <==> Adjacent(gate, a, b, n)
  {
    match gate {
      case EdgeOnly => adjacent := EdgeAdjacency(a, b, n);
      case Graph => adjacent := ScopesGraphConnected(a, b, n);
      case ModuleOrEdge => adjacent := IsAdjacent(a, b, n);
    }
  }

  /** The adjacent claims among the first `k`, in order. */
  ghost function AdjacentClaims(gate: Gate, scope: seq<string>, active: seq<Claim>, n: Neighbors, k: nat): seq<Claim>
    requires k <= |active|
  {
    if k == 0 then []
    else
      AdjacentClaims(gate, scope, active, n, k - 1)
        + (if Adjacent(gate, scope, active[k - 1].scope, n) then [active[k - 1]] else [])
  }

  method FindAdjacent(scope: seq<string>, active: seq<Claim>, n: Neighbors, gate: Gate) returns (out: seq<Claim>)
    ensures out == AdjacentClaims(gate, scope, active, n, |active|)
  {
    out := [];
    for i := 0 to |active|
      invariant out == AdjacentClaims(gate, scope, active, n, i)
    {
      var adjacent := GatePredicate(gate, scope, active[i].scope, n);
      if adjacent {
        out := out + [active[i]];
      }
    }
  }

  // ---------------------------------------------------------------- overlap

  /** The ids of `b` that are in `a`, in the order of `b`. */
  function Shared(a: seq<string>, b: seq<string>, k: nat): seq<string>
    requires k <= |b|
  {
    if k == 0 then [] else Shared(a, b, k - 1) + (if b[k - 1] in a then [b[k - 1]] else [])
  }

  lemma {:induction false} SharedMeans(a: seq<string>, b: seq<string>, k: nat)
    requires k <= |b|
    ensures forall x :: x in Shared(a, b, k) <==> x in a && x in b[..k]
    ensures Shared(a, b, k) == [] <==> forall i :: 0 <= i < k ==> b[i] !in a
  {
    if k > 0 {
      SharedMeans(a, b, k - 1);
      assert b[..k] == b[..k - 1] + [b[k - 1]];
    }
  }

  method Intersects(a: seq<string>, b: seq<string>) returns (out: seq<string>)
    ensures out == Shared(a, b, |b|)
  {
    out := [];
    for i := 0 to |b|
      invariant out == Shared(a, b, i)
    {
      if b[i] in a {
        out := out + [b[i]];
      }
    }
  }

  /** Two scopes overlap. */
  ghost predicate Overlap(a: seq<string>, b: seq<string>) {
    exists x :: x in a && x in b
  }

  /** The first active claim that overlaps, with exactly the common ids. */
  method FindOverlap(incoming: seq<string>, active: seq<Claim>) returns (r: Option<(Claim, seq<string>)>, ghost at: nat)
    ensures r.None? ==> forall k :: 0 <= k < |active| ==> !Overlap(incoming, active[k].scope)
    ensures r.Some? ==> at < |active| && r.value.0 == active[at] && Overlap(incoming, active[at].scope)
    ensures r.Some? ==> forall k :: 0 <= k < at ==> !Overlap(incoming, active[k].scope)
    ensures r.Some? ==> forall x :: x in r.value.1 <==> x in incoming && x in active[at].scope
  {
    at := 0;
    for i := 0 to |active|
      invariant forall k :: 0 <= k < i ==> !Overlap(incoming, active[k].scope)
    {
      var scope := active[i].scope;
      var shared := Intersects(incoming, scope);
      SharedMeans(incoming, scope, |scope|);
      assert scope[..|scope|] == scope;
      if |shared| > 0 {
        assert shared[0] in shared;
        return Some((active[i], shared)), i;
      }
    }
    return None, 0;
  }
}
