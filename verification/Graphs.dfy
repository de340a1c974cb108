/**
 The reference graph: what a claim reaches along its references, and which claims
 some undirected path joins. Both are computed by stack worklists.
 */
module Graphs {
  import opened Rows

  /** Outgoing references of every kept claim; targets are kept claims too. */
  type Graph = map<ClaimHash, seq<ClaimHash>>

  predicate Closed(g: Graph) {
    forall a, i | a in g && 0 <= i < |g[a]| :: g[a][i] in g
  }

  predicate Refs(g: Graph, a: ClaimHash, b: ClaimHash) { a in g && b in g[a] }

  // ── Reachability ─────────────────────────────────────────────────────

  ghost predicate Walk(g: Graph, p: seq<ClaimHash>) {
    forall i | 0 <= i < |p| - 1 :: Refs(g, p[i], p[i + 1])
  }

  ghost predicate WalkFromTo(g: Graph, p: seq<ClaimHash>, a: ClaimHash, b: ClaimHash) {
    |p| >= 2 && p[0] == a && p[|p| - 1] == b && Walk(g, p)
  }

  /** `b` is in the causal history of `a`. */
  ghost predicate Reaches(g: Graph, a: ClaimHash, b: ClaimHash) {
    exists p :: WalkFromTo(g, p, a, b)
  }

  /** A claim cannot name a hash that depends on its own. */
  ghost predicate Acyclic(g: Graph) {
    forall a :: !Reaches(g, a, a)
  }

  lemma RefsReach(g: Graph, a: ClaimHash, b: ClaimHash)
    requires Refs(g, a, b)
    ensures Reaches(g, a, b)
  {
    assert WalkFromTo(g, [a, b], a, b);
  }

  lemma ReachesIsTransitive(g: Graph, a: ClaimHash, b: ClaimHash, c: ClaimHash)
    requires Reaches(g, a, b) && Reaches(g, b, c)
    ensures Reaches(g, a, c)
  {
    var p :| WalkFromTo(g, p, a, b);
    var q :| WalkFromTo(g, q, b, c);
    var r := p + q[1..];
    forall i | 0 <= i < |r| - 1
      ensures Refs(g, r[i], r[i + 1])
    {
      if i >= |p| - 1 {
        assert r[i] == q[i - (|p| - 1)] && r[i + 1] == q[i + 1 - (|p| - 1)];
      }
    }
    assert WalkFromTo(g, r, a, c);
  }

  /** A set holding the references of `a` and of its own members holds all `a` reaches. */
  lemma {:induction false} ClosedHoldsWalk(g: Graph, s: set<ClaimHash>, p: seq<ClaimHash>, a: ClaimHash, b: ClaimHash)
    requires WalkFromTo(g, p, a, b)
    requires (forall x | Refs(g, a, x) :: x in s) && forall x, y | x in s && Refs(g, x, y) :: y in s
    ensures b in s
    decreases |p|
  {
    var n := |p| - 1;
    assert Refs(g, p[n - 1], p[n]);
    if n > 1 {
      assert WalkFromTo(g, p[..n], a, p[n - 1]);
      ClosedHoldsWalk(g, s, p[..n], a, p[n - 1]);
    }
  }

  lemma ReachedIsNode(g: Graph, a: ClaimHash, b: ClaimHash)
    requires Closed(g) && Reaches(g, a, b)
    ensures a in g && b in g
  {
    var p :| WalkFromTo(g, p, a, b);
    assert Refs(g, p[0], p[1]) && Refs(g, p[|p| - 2], p[|p| - 1]);
  }

  ghost function Ancestors(g: Graph, a: ClaimHash): set<ClaimHash> {
    set b | b in g && Reaches(g, a, b)
  }

  /** A history being followed: all reached, and nothing referenced is left out. */
  ghost predicate Following(g: Graph, a: ClaimHash, seen: set<ClaimHash>, stack: seq<ClaimHash>) {
    && seen <= g.Keys && (forall x | x in stack :: x in g)
    && (forall x | x in seen :: Reaches(g, a, x)) && (forall x | x in stack :: Reaches(g, a, x))
    && (forall x | Refs(g, a, x) :: x in seen || x in stack)
    && forall x, y | x in seen && Refs(g, x, y) :: y in seen || y in stack
  }

  lemma FollowsPast(g: Graph, a: ClaimHash, seen: set<ClaimHash>, rest: seq<ClaimHash>, n: ClaimHash)
    requires Following(g, a, seen, rest + [n]) && n in seen
    ensures Following(g, a, seen, rest)
  {
    hide Reaches, Refs;
    assert forall x | x in rest :: x in rest + [n];
    assert forall x | x in rest + [n] :: x in rest || x == n;
  }

  lemma FollowsOn(g: Graph, a: ClaimHash, seen: set<ClaimHash>, rest: seq<ClaimHash>, n: ClaimHash)
    requires Closed(g) && Following(g, a, seen, rest + [n]) && n in g
    ensures Following(g, a, seen + {n}, rest + g[n])
  {
    hide Reaches;
    assert n in rest + [n];
    forall y | y in g[n]
      ensures Reaches(g, a, y) && y in g
    {
      RefsReach(g, n, y);
      ReachesIsTransitive(g, a, n, y);
    }
    assert forall x | x in rest :: x in rest + [n];
    assert forall x | x in rest + [n] :: x in rest || x == n;
    assert forall x | x in rest + g[n] :: x in rest || x in g[n];
  }

  /** Everything reachable, by a worklist of references still to follow. */
  method History(g: Graph, a: ClaimHash) returns (seen: set<ClaimHash>)
    requires Closed(g) && a in g
    ensures seen == Ancestors(g, a)
  {
    hide Reaches, Refs, Closed, Following;
    seen := {};
    var stack := g[a];
    StartsFollowing(g, a);
    while stack != []
      invariant Following(g, a, seen, stack)
      decreases |g.Keys - seen|, |stack|
    {
      var n := stack[|stack| - 1];
      var rest := stack[..|stack| - 1];
      assert stack == rest + [n];
      FollowedAreNodes(g, a, seen, stack);
      if n !in seen {
        FollowsOn(g, a, seen, rest, n);
        assert g.Keys - (seen + {n}) < g.Keys - seen by { assert n in g.Keys - seen; }
        SmallerSet(g.Keys - (seen + {n}), g.Keys - seen);
        seen := seen + {n};
        stack := rest + g[n];
      } else {
        FollowsPast(g, a, seen, rest, n);
        stack := rest;
      }
    }
    Followed(g, a, seen);
  }

  lemma StartsFollowing(g: Graph, a: ClaimHash)
    requires Closed(g) && a in g
    ensures Following(g, a, {}, g[a])
  {
    hide Reaches;
    forall x | x in g[a]
      ensures Reaches(g, a, x)
    {
      RefsReach(g, a, x);
    }
  }

  lemma FollowedAreNodes(g: Graph, a: ClaimHash, seen: set<ClaimHash>, stack: seq<ClaimHash>)
    requires Following(g, a, seen, stack)
    ensures seen <= g.Keys && forall x | x in stack :: x in g
  {
  }

  lemma Followed(g: Graph, a: ClaimHash, seen: set<ClaimHash>)
    requires Following(g, a, seen, [])
    ensures seen == Ancestors(g, a)
  {
    forall b | Reaches(g, a, b)
      ensures b in seen
    {
      var p :| WalkFromTo(g, p, a, b);
      ClosedHoldsWalk(g, seen, p, a, b);
    }
  }

  lemma SmallerSet<T>(a: set<T>, b: set<T>)
    requires a < b
    ensures |a| < |b|
  {
    var x :| x in b && x !in a;
    assert a <= b - {x};
    SubsetIsNoBigger(a, b - {x});
  }

  lemma {:induction false} SubsetIsNoBigger<T>(a: set<T>, b: set<T>)
    requires a <= b
    ensures |a| <= |b|
  {
    if a != {} {
      var x :| x in a;
      SubsetIsNoBigger(a - {x}, b - {x});
    }
  }

  // ── Connectivity ─────────────────────────────────────────────────────

  predicate Adjacent(g: Graph, a: ClaimHash, b: ClaimHash) { Refs(g, a, b) || Refs(g, b, a) }

  ghost predicate Trail(g: Graph, p: seq<ClaimHash>) {
    forall i | 0 <= i < |p| - 1 :: Adjacent(g, p[i], p[i + 1])
  }

  ghost predicate TrailFromTo(g: Graph, p: seq<ClaimHash>, a: ClaimHash, b: ClaimHash) {
    |p| >= 1 && p[0] == a && p[|p| - 1] == b && Trail(g, p)
  }

  /** Some path of references, followed either way, joins the two. */
  ghost predicate Joined(g: Graph, a: ClaimHash, b: ClaimHash) {
    exists p :: TrailFromTo(g, p, a, b)
  }

  lemma JoinedToItself(g: Graph, a: ClaimHash)
    ensures Joined(g, a, a)
  {
    assert TrailFromTo(g, [a], a, a);
  }

  lemma JoinedStep(g: Graph, a: ClaimHash, b: ClaimHash, c: ClaimHash)
    requires Joined(g, a, b) && Adjacent(g, b, c)
    ensures Joined(g, a, c)
  {
    var p :| TrailFromTo(g, p, a, b);
    assert TrailFromTo(g, p + [c], a, c);
  }

  lemma JoinedIsSymmetric(g: Graph, a: ClaimHash, b: ClaimHash)
    requires Joined(g, a, b)
    ensures Joined(g, b, a)
  {
    var p :| TrailFromTo(g, p, a, b);
    var q := seq(|p|, i requires 0 <= i < |p| => p[|p| - 1 - i]);
    forall i | 0 <= i < |q| - 1
      ensures Adjacent(g, q[i], q[i + 1])
    {
      assert Adjacent(g, p[|p| - 2 - i], p[|p| - 2 - i + 1]);
    }
    assert TrailFromTo(g, q, b, a);
  }

  lemma JoinedIsTransitive(g: Graph, a: ClaimHash, b: ClaimHash, c: ClaimHash)
    requires Joined(g, a, b) && Joined(g, b, c)
    ensures Joined(g, a, c)
  {
    var p :| TrailFromTo(g, p, a, b);
    var q :| TrailFromTo(g, q, b, c);
    var r := p + q[1..];
    forall i | 0 <= i < |r| - 1
      ensures Adjacent(g, r[i], r[i + 1])
    {
      if i >= |p| - 1 {
        assert r[i] == q[i - (|p| - 1)] && r[i + 1] == q[i + 1 - (|p| - 1)];
      }
    }
    assert TrailFromTo(g, r, a, c);
  }

  /** A set closed under adjacency holds every claim joined to a member. */
  lemma {:induction false} ClosedHoldsTrail(g: Graph, s: set<ClaimHash>, p: seq<ClaimHash>, a: ClaimHash, b: ClaimHash)
    requires TrailFromTo(g, p, a, b) && a in s && forall x, y | x in s && Adjacent(g, x, y) :: y in s
    ensures b in s
    decreases |p|
  {
    var n := |p| - 1;
    if n > 0 {
      assert Adjacent(g, p[n - 1], p[n]);
      assert TrailFromTo(g, p[..n], a, p[n - 1]);
      ClosedHoldsTrail(g, s, p[..n], a, p[n - 1]);
    }
  }

  /** The connected component of a claim. */
  ghost function ClassOf(g: Graph, a: ClaimHash): set<ClaimHash> {
    set b | b in g && Joined(g, a, b)
  }

  ghost function Classes(g: Graph): set<set<ClaimHash>> {
    set a | a in g :: ClassOf(g, a)
  }

  /** Two claims share a class exactly when joined, and then have the same class. */
  lemma ClassesPartition(g: Graph, a: ClaimHash, b: ClaimHash)
    requires a in g && b in g
    ensures a in ClassOf(g, a)
    ensures b in ClassOf(g, a) <==> Joined(g, a, b)
    ensures Joined(g, a, b) ==> ClassOf(g, a) == ClassOf(g, b)
    ensures !Joined(g, a, b) ==> ClassOf(g, a) !! ClassOf(g, b)
  {
    JoinedToItself(g, a);
    forall c
      ensures Joined(g, a, b) ==> (Joined(g, a, c) <==> Joined(g, b, c))
      ensures Joined(g, a, c) && Joined(g, b, c) ==> Joined(g, a, b)
    {
      if Joined(g, a, b) {
        JoinedIsSymmetric(g, a, b);
        if Joined(g, a, c) { JoinedIsTransitive(g, b, a, c); }
        if Joined(g, b, c) { JoinedIsTransitive(g, a, b, c); }
      }
      if Joined(g, a, c) && Joined(g, b, c) {
        JoinedIsSymmetric(g, b, c);
        JoinedIsTransitive(g, a, c, b);
      }
    }
  }

  ghost predicate NeighboursOf(g: Graph, around: map<ClaimHash, set<ClaimHash>>) {
    around.Keys == g.Keys && forall a, b :: a in g && b in around[a] <==> Adjacent(g, a, b)
  }

  function Insert(around: map<ClaimHash, set<ClaimHash>>, a: ClaimHash, b: ClaimHash): map<ClaimHash, set<ClaimHash>> {
    around[a := (if a in around then around[a] else {}) + {b}]
  }

  /** The references so far, followed both ways. */
  ghost predicate AroundBoth(g: Graph, done: set<ClaimHash>, from: ClaimHash, k: nat, around: map<ClaimHash,
                             set<ClaimHash>>)
    requires from in g && k <= |g[from]|
  {
    && around.Keys == g.Keys
    && forall a, b :: a in g && b in around[a] <==>
         || (a in done && Refs(g, a, b)) || (b in done && Refs(g, b, a))
         || (a == from && b in g[from][..k]) || (b == from && a in g[from][..k])
  }

  lemma BothWays(g: Graph, done: set<ClaimHash>, from: ClaimHash, k: nat, around: map<ClaimHash, set<ClaimHash>>)
    requires Closed(g) && from in g && k < |g[from]| && AroundBoth(g, done, from, k, around)
    ensures AroundBoth(g, done, from, k + 1, Insert(Insert(around, from, g[from][k]), g[from][k], from))
  {
    hide Refs;
    assert g[from][k] in g;
    assert g[from][..k + 1] == g[from][..k] + [g[from][k]];
  }

  /** Undirected neighbours, from every reference and back. */
  method Undirected(g: Graph) returns (around: map<ClaimHash, set<ClaimHash>>)
    requires Closed(g)
    ensures NeighboursOf(g, around)
  {
    hide Closed, Insert;
    around := map a | a in g :: {};
    var left := g.Keys;
    while left != {}
      invariant left <= g.Keys && around.Keys == g.Keys
      invariant forall a, b :: a in g && b in around[a] <==>
                  (a in g.Keys - left && Refs(g, a, b)) || (b in g.Keys - left && Refs(g, b, a))
      decreases left
    {
      var from :| from in left;
      ghost var done := g.Keys - left;
      assert AroundBoth(g, done, from, 0, around);
      for k := 0 to |g[from]|
        invariant AroundBoth(g, done, from, k, around)
      {
        BothWays(g, done, from, k, around);
        around := Insert(Insert(around, from, g[from][k]), g[from][k], from);
      }
      assert g[from][..|g[from]|] == g[from];
      left := left - {from};
      assert g.Keys - left == done + {from};
    }
  }

  /** What was seen so far is whole components. */
  ghost predicate SeenWhole(g: Graph, seen: set<ClaimHash>, found: set<set<ClaimHash>>) {
    && seen <= g.Keys
    && (forall c | c in found :: c in Classes(g))
    && forall x :: x in seen <==> x in g && ClassOf(g, x) in found
  }

  lemma SeenIsClosed(g: Graph, seen: set<ClaimHash>, found: set<set<ClaimHash>>)
    requires SeenWhole(g, seen, found)
    ensures forall x, y | x in seen && y in g && Joined(g, x, y) :: y in seen
  {
    hide Joined, ClassOf, Classes;
    forall x, y | x in seen && y in g && Joined(g, x, y)
      ensures y in seen
    {
      ClassesPartition(g, x, y);
    }
  }

  lemma OneMoreClass(g: Graph, seen: set<ClaimHash>, found: set<set<ClaimHash>>, start: ClaimHash)
    requires SeenWhole(g, seen, found) && start in g && start !in seen
    ensures ClassOf(g, start) !in found && SeenWhole(g, seen + ClassOf(g, start), found + {ClassOf(g, start)})
  {
    hide Joined;
    var more := ClassOf(g, start);
    forall x
      ensures x in seen + more <==> x in g && ClassOf(g, x) in found + {more}
    {
      if x in g {
        ClassesPartition(g, start, x);
        ClassesPartition(g, x, x);
      }
    }
  }

  /** The components, each grown from a stack of claims still to visit. */
  method ConnectedComponents(g: Graph) returns (components: seq<set<ClaimHash>>)
    requires Closed(g)
    ensures (set c | c in components) == Classes(g) && |components| == |Classes(g)|
  {
    hide ClassOf, Joined, SeenWhole, Classes, NeighboursOf, Closed;
    var around := Undirected(g);
    var seen: set<ClaimHash> := {};
    components := [];
    ghost var found: set<set<ClaimHash>> := {};
    NothingSeen(g);
    var left := g.Keys;
    while left != {}
      invariant left <= g.Keys && g.Keys - left <= seen <= g.Keys
      invariant found == (set c | c in components) && |found| == |components|
      invariant SeenWhole(g, seen, found)
      decreases left
    {
      var start :| start in left;
      left := left - {start};
      if start !in seen {
        SeenIsClosed(g, seen, found);
        OneMoreClass(g, seen, found, start);
        ClassesPartition(g, start, start);
        var component, seen' := Visit(g, around, seen, start);
        SeenAreNodes(g, seen', found + {component});
        seen := seen';
        components := components + [component];
        found := found + {component};
      }
    }
    AllSeen(g, seen, found);
  }

  lemma NothingSeen(g: Graph)
    ensures SeenWhole(g, {}, {})
  {
  }

  lemma SeenAreNodes(g: Graph, seen: set<ClaimHash>, found: set<set<ClaimHash>>)
    requires SeenWhole(g, seen, found)
    ensures seen <= g.Keys
  {
  }

  lemma AllSeen(g: Graph, seen: set<ClaimHash>, found: set<set<ClaimHash>>)
    requires SeenWhole(g, seen, found) && g.Keys <= seen
    ensures found == Classes(g)
  {
    hide ClassOf;
  }

  /** A component being grown: what is in it and what is still to visit belong, and nothing else is left out. */
  ghost predicate Growing(g: Graph, start: ClaimHash, component: set<ClaimHash>, seen: set<ClaimHash>,
                          stack: seq<ClaimHash>) {
    && component <= seen <= g.Keys && (forall x | x in stack :: x in g)
    && (forall x | x in component :: Joined(g, start, x)) && (forall x | x in stack :: Joined(g, start, x))
    && (start in component || start in stack)
    && forall x, y | x in component && Adjacent(g, x, y) :: y in seen || y in stack
  }

  lemma GrowsPast(g: Graph, start: ClaimHash, component: set<ClaimHash>, seen: set<ClaimHash>, rest: seq<ClaimHash>,
                  id: ClaimHash)
    requires Growing(g, start, component, seen, rest + [id]) && id in seen && (id == start ==> start in component)
    ensures Growing(g, start, component, seen, rest)
  {
    hide Joined, Adjacent;
    assert forall x | x in rest :: x in rest + [id];
    assert forall x | x in rest + [id] :: x in rest || x == id;
  }

  lemma GrowsBy(g: Graph, start: ClaimHash, component: set<ClaimHash>, seen: set<ClaimHash>, rest: seq<ClaimHash>,
                id: ClaimHash, more: seq<ClaimHash>)
    requires Closed(g) && Growing(g, start, component, seen, rest + [id]) && id !in seen
    requires forall y :: y in more <==> Adjacent(g, id, y) && y !in seen + {id}
    ensures Growing(g, start, component + {id}, seen + {id}, rest + more)
  {
    hide Joined;
    assert id in rest + [id];
    forall y | y in more
      ensures Joined(g, start, y)
    {
      JoinedStep(g, start, id, y);
    }
    assert forall x | x in rest :: x in rest + [id];
    assert forall x | x in rest + [id] :: x in rest || x == id;
    assert forall x | x in rest + more :: x in rest || x in more;
  }

  /** Grow one component; what was seen before is whole components. */
  method Visit(g: Graph, around: map<ClaimHash, set<ClaimHash>>, before: set<ClaimHash>, start: ClaimHash)
    returns (component: set<ClaimHash>, seen: set<ClaimHash>)
    requires Closed(g) && NeighboursOf(g, around) && start in g && start !in before && before <= g.Keys
    requires forall x, y | x in before && y in g && Joined(g, x, y) :: y in before
    ensures component == ClassOf(g, start) && seen == before + component
  {
    hide Joined, Adjacent, Closed, Growing;
    component, seen := {}, before;
    var stack := [start];
    assert Growing(g, start, component, seen, stack) by { StartsGrowing(g, start, before); }
    while stack != []
      invariant seen == before + component && Growing(g, start, component, seen, stack)
      decreases |g.Keys - seen|, |stack|
    {
      var id := stack[|stack| - 1];
      var rest := stack[..|stack| - 1];
      assert stack == rest + [id];
      GrowingAreNodes(g, start, component, seen, stack);
      if id in seen {
        GrowsPast(g, start, component, seen, rest, id);
        stack := rest;
      } else {
        var more := Unseen(around[id], seen + {id});
        GrowsBy(g, start, component, seen, rest, id, more);
        assert g.Keys - (seen + {id}) < g.Keys - seen by { assert id in g.Keys - seen; }
        SmallerSet(g.Keys - (seen + {id}), g.Keys - seen);
        seen := seen + {id};
        component := component + {id};
        stack := rest + more;
      }
    }
    Grown(g, before, component, start);
  }

  lemma StartsGrowing(g: Graph, start: ClaimHash, before: set<ClaimHash>)
    requires start in g && before <= g.Keys
    ensures Growing(g, start, {}, before, [start])
  {
    JoinedToItself(g, start);
  }

  lemma GrowingAreNodes(g: Graph, start: ClaimHash, component: set<ClaimHash>, seen: set<ClaimHash>,
                        stack: seq<ClaimHash>)
    requires Growing(g, start, component, seen, stack)
    ensures seen <= g.Keys && forall x | x in stack :: x in g
  {
  }

  /** Neighbours not seen yet, pushed in any order. */
  method Unseen(near: set<ClaimHash>, seen: set<ClaimHash>) returns (more: seq<ClaimHash>)
    ensures forall y :: y in more <==> y in near && y !in seen
  {
    more := [];
    var left := near;
    while left != {}
      invariant left <= near && forall y :: y in more <==> y in near && y !in left && y !in seen
      decreases left
    {
      var y :| y in left;
      if y !in seen {
        more := more + [y];
      }
      left := left - {y};
    }
  }

  lemma Grown(g: Graph, before: set<ClaimHash>, component: set<ClaimHash>, start: ClaimHash)
    requires start in g && start !in before && Growing(g, start, component, before + component, [])
    requires forall x, z | x in before && z in g && Joined(g, x, z) :: z in before
    ensures component == ClassOf(g, start)
  {
    forall x, z | x in component && Adjacent(g, x, z)
      ensures z in component
    {
      if z in before {
        JoinedStep(g, start, x, z);
        JoinedIsSymmetric(g, start, z);
        assert false;
      }
    }
    forall y | y in g && Joined(g, start, y)
      ensures y in component
    {
      var p :| TrailFromTo(g, p, start, y);
      ClosedHoldsTrail(g, component, p, start, y);
    }
  }
}
