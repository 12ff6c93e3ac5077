/** Directed graphs as adjacency lists: paths, cycles, and orders that show there
    are none.  A target without a list of its own is a node with no way out. */
module Graphs {
  type Graph = map<string, seq<string>>

  /** `adj.get(n) || []` */
  function Next(g: Graph, n: string): seq<string> {
    if n in g then g[n] else []
  }

  predicate Edge(g: Graph, a: string, b: string) {
    b in Next(g, a)
  }

  ghost predicate Path(g: Graph, p: seq<string>) {
    && p != []
    && forall i :: 0 <= i < |p| - 1 ==> Edge(g, p[i], p[i + 1])
  }

  ghost predicate PathFromTo(g: Graph, p: seq<string>, a: string, b: string) {
    Path(g, p) && p[0] == a && p[|p| - 1] == b
  }

  ghost predicate Reaches(g: Graph, a: string, b: string) {
    exists p :: PathFromTo(g, p, a, b)
  }

  ghost predicate Cycle(g: Graph, p: seq<string>) {
    Path(g, p) && |p| >= 2 && p[0] == p[|p| - 1]
  }

  ghost predicate Cyclic(g: Graph) {
    exists p :: Cycle(g, p)
  }

  ghost predicate ReachesCycle(g: Graph, a: string) {
    exists p :: Cycle(g, p) && Reaches(g, a, p[0])
  }

  /** Every node's successors that are keys stand before it. */
  ghost predicate DepsFirst(g: Graph, order: seq<string>) {
    forall i, b :: 0 <= i < |order| && Edge(g, order[i], b) && b in g ==> b in order[..i]
  }

  ghost predicate Distinct<T(!new)>(s: seq<T>) {
    forall i, k :: 0 <= i < k < |s| ==> s[i] != s[k]
  }

  // ----- walking -----

  lemma ReachesSelf(g: Graph, a: string)
    ensures Reaches(g, a, a)
  {
    assert PathFromTo(g, [a], a, a);
  }

  lemma EdgeThenReaches(g: Graph, a: string, b: string, c: string)
    requires Edge(g, a, b) && Reaches(g, b, c)
    ensures Reaches(g, a, c)
  {
    var p :| PathFromTo(g, p, b, c);
    assert PathFromTo(g, [a] + p, a, c);
  }

  lemma ReachesThenEdge(g: Graph, a: string, b: string, c: string)
    requires Reaches(g, a, b) && Edge(g, b, c)
    ensures Reaches(g, a, c)
  {
    var p :| PathFromTo(g, p, a, b);
    assert PathFromTo(g, p + [c], a, c);
  }

  lemma EdgeThenReachesCycle(g: Graph, a: string, b: string)
    requires Edge(g, a, b) && ReachesCycle(g, b)
    ensures ReachesCycle(g, a)
  {
    var p :| Cycle(g, p) && Reaches(g, b, p[0]);
    EdgeThenReaches(g, a, b, p[0]);
  }

  /** A path that comes back to one of its own nodes closes a cycle. */
  lemma BackEdge(g: Graph, p: seq<string>, b: string)
    requires Path(g, p) && b in p && Edge(g, p[|p| - 1], b)
    ensures ReachesCycle(g, p[|p| - 1]) && ReachesCycle(g, b)
  {
    var i :| 0 <= i < |p| && p[i] == b;
    var c := p[i..] + [b];
    assert Cycle(g, c);
    ReachesSelf(g, b);
    assert PathFromTo(g, [p[|p| - 1], b], p[|p| - 1], c[0]);
  }

  lemma RepeatedNode(g: Graph, p: seq<string>, i: nat, k: nat)
    requires Path(g, p) && i < k < |p| && p[i] == p[k]
    ensures Cyclic(g)
  {
    assert Cycle(g, p[i..k + 1]);
  }

  lemma OneNodePath(g: Graph, n: string)
    ensures Path(g, [n])
  {
  }

  lemma ExtendPath(g: Graph, p: seq<string>, n: string)
    requires Path(g, p) && Edge(g, p[|p| - 1], n)
    ensures Path(g, p + [n])
  {
  }

  lemma CyclicIfReached(g: Graph, n: string)
    requires ReachesCycle(g, n)
    ensures Cyclic(g)
  {
  }

  // ----- counting -----

  lemma {:induction false} Pigeonhole(s: seq<string>, holes: set<string>)
    requires forall i :: 0 <= i < |s| ==> s[i] in holes
    requires |s| > |holes|
    ensures !Distinct(s)
  {
    if Distinct(s) {
      var rest := s[..|s| - 1];
      assert forall i :: 0 <= i < |rest| ==> rest[i] != s[|s| - 1];
      if |rest| > |holes - {s[|s| - 1]}| {
        Pigeonhole(rest, holes - {s[|s| - 1]});
      }
    }
  }

  /** Without cycles, a path among keys is no longer than their number. */
  lemma PathsAmongKeysAreShort(g: Graph, p: seq<string>)
    requires Path(g, p) && !Cyclic(g) && p[|p| - 1] in g
    ensures |p| <= |g|
  {
    forall i | 0 <= i < |p|
      ensures p[i] in g.Keys
    {
      if i < |p| - 1 {
        assert Edge(g, p[i], p[i + 1]);
      }
    }
    if |p| > |g.Keys| {
      Pigeonhole(p, g.Keys);
      var i, k :| 0 <= i < k < |p| && p[i] == p[k];
      RepeatedNode(g, p, i, k);
    }
    assert |g.Keys| == |g|;
  }

  // ----- orders -----

  lemma AddLast(g: Graph, order: seq<string>, n: string)
    requires DepsFirst(g, order) && forall m :: Edge(g, n, m) && m in g ==> m in order
    ensures DepsFirst(g, order + [n])
  {
    var more := order + [n];
    forall i, b | 0 <= i < |more| && Edge(g, more[i], b) && b in g
      ensures b in more[..i]
    {
      if i < |order| {
        assert more[..i] == order[..i];
      } else {
        assert more[..i] == order;
      }
    }
  }

  /** The first place of a node in an order. */
  ghost function Place(order: seq<string>, n: string): (i: nat)
    requires n in order
    ensures i < |order| && order[i] == n && n !in order[..i]
  {
    if order[0] == n then 0 else 1 + Place(order[1..], n)
  }

  /** A path that starts in such an order and stays among keys descends in it. */
  lemma {:induction false} OrderedPathDescends(g: Graph, order: seq<string>, p: seq<string>, k: nat)
    requires DepsFirst(g, order)
    requires Path(g, p) && p[0] in order && 1 <= k < |p| && p[|p| - 1] in g
    ensures p[k] in order && Place(order, p[k]) < Place(order, p[0])
  {
    if k > 1 {
      OrderedPathDescends(g, order, p, k - 1);
    }
    assert Edge(g, p[k - 1], p[k]);
    assert p[k] in g by {
      if k < |p| - 1 {
        assert Edge(g, p[k], p[k + 1]);
      }
    }
    var i := Place(order, p[k - 1]);
    assert p[k] in order[..i];
  }

  /** Listing nodes after their successors leaves no way from them to a cycle. */
  lemma OrderedReachesNoCycle(g: Graph, order: seq<string>, n: string)
    requires DepsFirst(g, order) && n in order
    ensures !ReachesCycle(g, n)
  {
    if p :| Cycle(g, p) && Reaches(g, n, p[0]) {
      var q :| PathFromTo(g, q, n, p[0]);
      assert Edge(g, p[0], p[1]);
      if |q| > 1 {
        OrderedPathDescends(g, order, q, |q| - 1);
      }
      OrderedPathDescends(g, order, p, |p| - 1);
    }
  }

  lemma OrderedIsAcyclic(g: Graph, order: seq<string>)
    requires DepsFirst(g, order) && g.Keys == set n | n in order
    ensures !Cyclic(g)
  {
    if p :| Cycle(g, p) {
      assert Edge(g, p[0], p[1]);
      ReachesSelf(g, p[0]);
      OrderedReachesNoCycle(g, order, p[0]);
    }
  }

  // ----- closed sets -----

  /** What contains `a` and all successors of its members contains all `a` reaches. */
  lemma {:induction false} ClosedUnderPath(g: Graph, s: set<string>, p: seq<string>)
    requires Path(g, p) && p[0] in s
    requires forall n, m :: n in s && Edge(g, n, m) ==> m in s
    ensures p[|p| - 1] in s
  {
    if |p| > 1 {
      assert Edge(g, p[0], p[1]);
      ClosedUnderPath(g, s, p[1..]);
    }
  }

  lemma ClosedUnderReach(g: Graph, s: set<string>, a: string, b: string)
    requires Reaches(g, a, b) && a in s
    requires forall n, m :: n in s && Edge(g, n, m) ==> m in s
    ensures b in s
  {
    var p :| PathFromTo(g, p, a, b);
    ClosedUnderPath(g, s, p);
  }

  lemma SameEdgesSameCycles(g: Graph, h: Graph)
    requires forall a, b :: Edge(g, a, b) <==> Edge(h, a, b)
    ensures Cyclic(g) <==> Cyclic(h)
  {
    if p :| Cycle(g, p) {
      assert Cycle(h, p);
    }
    if p :| Cycle(h, p) {
      assert Cycle(g, p);
    }
  }
}
