/** On a valid acyclic canvas the last row in which an ID stands is its depth, whether
    or not IDs are repeated; and a loop that ends leaves IDs over exactly on the cyclic
    canvases. */
module Depths {
  import opened Graphs
  import opened Canvas
  import opened Kahn
  import opened Layering

  ghost predicate Root(g: Graph, a: string) {
    forall b :: !Edge(g, b, a)
  }

  /** The longest path to `n` has `d` edges, and one that long starts at a root. */
  ghost predicate IsDepth(g: Graph, n: string, d: nat) {
    && (forall p :: Path(g, p) && p[|p| - 1] == n ==> |p| - 1 <= d)
    && exists p :: Path(g, p) && p[|p| - 1] == n && |p| - 1 == d && Root(g, p[0])
  }

  lemma CanvasEdges(s: BuilderState, a: string, b: string)
    requires ValidEdges(s)
    ensures Edge(CanvasGraph(s), a, b) <==> exists e :: e in s.edges && e.source == a && e.target == b
    ensures Edge(CanvasGraph(s), a, b) ==> a in NodeIds(s.nodes) && b in NodeIds(s.nodes)
  {
  }

  // ----- depths -----

  /** A longer path to the source of an edge is a longer path to its target. */
  lemma DepthGrows(g: Graph, a: string, b: string, d: nat, e: nat)
    requires Edge(g, a, b) && IsDepth(g, a, d) && IsDepth(g, b, e)
    ensures d < e
  {
    var p :| Path(g, p) && p[|p| - 1] == a && |p| - 1 == d && Root(g, p[0]);
    ExtendPath(g, p, b);
    assert (p + [b])[|p|] == b;
  }

  /** A node has one depth. */
  lemma DepthIsUnique(g: Graph, n: string, d: nat, e: nat)
    requires IsDepth(g, n, d) && IsDepth(g, n, e)
    ensures d == e
  {
  }

  lemma PrependPath(g: Graph, a: string, p: seq<string>)
    requires Path(g, p) && Edge(g, a, p[0])
    ensures Path(g, [a] + p) && ([a] + p)[|p|] == p[|p| - 1]
  {
  }

  /** Without cycles, some path to `n` that is at least as long as `p` is a longest one. */
  lemma {:induction false} LongestPath(g: Graph, n: string, p: seq<string>) returns (d: nat)
    requires !Cyclic(g) && n in g && Path(g, p) && p[|p| - 1] == n
    ensures IsDepth(g, n, d)
    decreases |g| + 1 - |p|
  {
    hide Cyclic, Edge;
    PathsAmongKeysAreShort(g, p);
    if q :| Path(g, q) && q[|q| - 1] == n && |q| > |p| {
      PathsAmongKeysAreShort(g, q);
      d := LongestPath(g, n, q);
    } else {
      d := |p| - 1;
      forall b
        ensures !Edge(g, b, p[0])
      {
        if Edge(g, b, p[0]) {
          var longer := [b] + p;
          PrependPath(g, b, p);
        }
      }
    }
  }

  lemma DepthExists(g: Graph, n: string) returns (d: nat)
    requires !Cyclic(g) && n in g
    ensures IsDepth(g, n, d)
  {
    hide Cyclic, IsDepth;
    OneNodePath(g, n);
    d := LongestPath(g, n, [n]);
  }

  /** The last but one node of a longest path is one row up. */
  lemma JustAbove(g: Graph, n: string, d: nat) returns (a: string)
    requires IsDepth(g, n, d) && d > 0
    ensures Edge(g, a, n) && IsDepth(g, a, d - 1)
  {
    var p :| Path(g, p) && p[|p| - 1] == n && |p| - 1 == d && Root(g, p[0]);
    var front := p[..d];
    a := p[d - 1];
    assert Edge(g, p[d - 1], p[d - 1 + 1]);
    assert Path(g, front) && front[|front| - 1] == a;
    forall q | Path(g, q) && q[|q| - 1] == a
      ensures |q| - 1 <= d - 1
    {
      ExtendPath(g, q, n);
      assert (q + [n])[|q|] == n;
    }
  }

  lemma DepthZeroIsRoot(g: Graph, n: string)
    requires IsDepth(g, n, 0)
    ensures Root(g, n)
  {
  }

  // ----- the rounds lay out depths -----

  lemma OneRound(s: BuilderState, k: nat)
    ensures k == 0 ==> Rounds(s, k).layers == []
    ensures k > 0 && Rounds(s, k - 1).queue == [] ==> Rounds(s, k) == Rounds(s, k - 1)
    ensures k > 0 && Rounds(s, k - 1).queue != [] ==>
              Rounds(s, k).layers == Rounds(s, k - 1).layers + [Rounds(s, k - 1).queue]
  {
    hide LayerOff, Free, InDegrees, CanvasGraph;
  }

  /** Each layer is one round's queue. */
  lemma {:induction false} LayersAreQueues(s: BuilderState, k: nat)
    ensures var layers := Rounds(s, k).layers;
            && |layers| <= k
            && (Rounds(s, k).queue != [] ==> |layers| == k)
            && (forall r: nat :: r < |layers| ==> layers[r] == Rounds(s, r).queue)
            && (forall r: nat :: r < k && Rounds(s, r).queue != [] ==> r < |layers|)
  {
    hide Rounds;
    OneRound(s, k);
    if k > 0 {
      LayersAreQueues(s, k - 1);
    }
  }

  lemma {:induction false} QueuedIsLaidOut(s: BuilderState, r: nat, k: nat, n: string)
    requires n in Rounds(s, r).queue && r < k
    ensures n in Flat(Rounds(s, k).layers)
  {
    hide LayerOff, Start, CanvasGraph, Flat;
    var p := Rounds(s, k - 1);
    FlatGrows(p.layers, p.queue);
    if r < k - 1 {
      QueuedIsLaidOut(s, r, k - 1, n);
    }
  }

  lemma {:induction false} HitsCover(
    edges: seq<CanvasEdge>, adj: Graph, queue: seq<string>, n: string, done: set<string>)
    requires forall u :: u in adj ==> adj[u] == TargetsFrom(edges, u)
    ensures Pending(edges, n, done) <= Pending(edges, n, done + Members(queue) * adj.Keys) + Hits(adj, queue, n)
  {
    hide Pending, TargetsFrom, Next;
    if queue == [] {
      assert done + Members(queue) * adj.Keys == done;
    } else {
      var front, last := queue[..|queue| - 1], queue[|queue| - 1];
      assert queue == front + [last];
      HitsCover(edges, adj, front, n, done);
      var now, all := done + Members(front) * adj.Keys, done + Members(queue) * adj.Keys;
      assert all == now + {last} * adj.Keys;
      if last in now {
        assert all == now;
      } else {
        TakenFrom(edges, adj, n, now, last);
      }
    }
  }

  /** Degrees may fall too fast where an ID is queued twice, never too slowly. */
  lemma {:induction false} AtMostPending(s: BuilderState, k: nat, n: string)
    ensures Degree(Rounds(s, k).deg, n) <=
            Pending(s.edges, n, Members(Flat(Rounds(s, k).layers)) * NodeIds(s.nodes))
  {
    hide NodeIds, Pending, LayerOff, Flat, Hits, TargetsFrom, Degree;
    var ids := NodeIds(s.nodes);
    if k == 0 {
      NothingLaidOut(s);
      assert Members(Flat(Rounds(s, 0).layers)) * ids == {};
      InDegreeIsPending(ids, s.edges);
    } else {
      AtMostPending(s, k - 1, n);
      var p, g := Rounds(s, k - 1), CanvasGraph(s);
      if p.queue != [] {
        var flat := Flat(p.layers);
        LayerHits(g, p.queue, p.deg);
        HitsCover(s.edges, g, p.queue, n, Members(flat) * ids);
        FlatGrows(p.layers, p.queue);
        assert g.Keys == ids;
        assert Members(flat + p.queue) * ids == Members(flat) * ids + Members(p.queue) * ids;
      }
    }
  }

  lemma FreeAtStart(s: BuilderState, n: string)
    requires ValidEdges(s) && n in NodeIds(s.nodes) && Root(CanvasGraph(s), n)
    ensures n in Rounds(s, 0).queue
  {
    hide Pending, CanvasGraph, InDegrees;
    forall e | e in s.edges && e.target == n
      ensures false
    {
      CanvasEdges(s, e.source, n);
    }
    PendingIsTarget(s.edges, n);
    InDegreeIsPending(NodeIds(s.nodes), s.edges);
  }

  /** All predecessors laid out, no degree left. */
  lemma PredecessorsDone(s: BuilderState, k: nat, n: string)
    requires forall e :: e in s.edges && e.target == n ==>
                           e.source in NodeIds(s.nodes) && e.source in Flat(Rounds(s, k).layers)
    ensures Degree(Rounds(s, k).deg, n) == 0
  {
    hide NodeIds, Flat, Rounds, Pending;
    var done := Members(Flat(Rounds(s, k).layers)) * NodeIds(s.nodes);
    AtMostPending(s, k, n);
    assert OnlyFrom(s.edges, done, n);
    NothingPending(s.edges, n, done);
  }

  /** Who has depth `d` is queued in round `d`. */
  lemma {:induction false} QueuedAtDepth(s: BuilderState, n: string, d: nat)
    requires ValidEdges(s) && !Cyclic(CanvasGraph(s)) && n in NodeIds(s.nodes) && IsDepth(CanvasGraph(s), n, d)
    ensures n in Rounds(s, d).queue
    decreases d
  {
    hide ValidEdges, Cyclic, NodeIds, CanvasGraph, IsDepth, Edge;
    var g := CanvasGraph(s);
    if d == 0 {
      DepthZeroIsRoot(g, n);
      FreeAtStart(s, n);
    } else {
      var a := JustAbove(g, n, d);
      CanvasEdges(s, a, n);
      QueuedAtDepth(s, a, d - 1);
      forall e | e in s.edges && e.target == n
        ensures e.source in NodeIds(s.nodes) && e.source in Flat(Rounds(s, d).layers)
      {
        EarlierSource(s, e, d);
      }
      PredecessorsDone(s, d, n);
      QueuedNext(s, d, a, n);
    }
  }

  lemma {:induction false} EarlierSource(s: BuilderState, e: CanvasEdge, d: nat)
    requires ValidEdges(s) && !Cyclic(CanvasGraph(s)) && e in s.edges && IsDepth(CanvasGraph(s), e.target, d)
    ensures e.source in NodeIds(s.nodes) && e.source in Flat(Rounds(s, d).layers)
    decreases d, 0
  {
    hide ValidEdges, Cyclic, NodeIds, CanvasGraph, IsDepth, Edge, Flat, Rounds;
    var g := CanvasGraph(s);
    CanvasEdges(s, e.source, e.target);
    assert g.Keys == NodeIds(s.nodes) by { KeysAreIds(s); }
    var f := DepthExists(g, e.source);
    DepthGrows(g, e.source, e.target, f, d);
    QueuedAtDepth(s, e.source, f);
    QueuedIsLaidOut(s, f, d, e.source);
  }

  lemma KeysAreIds(s: BuilderState)
    ensures CanvasGraph(s).Keys == NodeIds(s.nodes)
  {
  }

  /** Nobody is queued later than at its depth. */
  lemma NotAfterDepth(s: BuilderState, r: nat, n: string, d: nat)
    requires n in Rounds(s, r).queue && IsDepth(CanvasGraph(s), n, d)
    ensures r <= d
  {
    hide Rounds, CanvasGraph;
    var p := PathOfQueues(s, r, n);
  }

  /** The last layer that has `n` is its one depth. */
  lemma LastRowIsDepth(s: BuilderState, k: nat, n: string) returns (d: nat)
    requires ValidEdges(s) && !Cyclic(CanvasGraph(s)) && Rounds(s, k).queue == [] && n in NodeIds(s.nodes)
    ensures IsDepth(CanvasGraph(s), n, d) && forall e: nat :: IsDepth(CanvasGraph(s), n, e) ==> e == d
    ensures d < |Rounds(s, k).layers| && n in Rounds(s, k).layers[d]
    ensures forall r :: d < r < |Rounds(s, k).layers| ==> n !in Rounds(s, k).layers[r]
  {
    hide Rounds, CanvasGraph, ValidEdges, Cyclic, IsDepth, NodeIds;
    KeysAreIds(s);
    d := DepthExists(CanvasGraph(s), n);
    forall e: nat | IsDepth(CanvasGraph(s), n, e)
      ensures e == d
    {
      DepthIsUnique(CanvasGraph(s), n, d, e);
    }
    QueuedAtDepth(s, n, d);
    LayersAreQueues(s, k);
    if d >= k {
      StaysEmpty(s, k, d);
    }
    var layers := Rounds(s, k).layers;
    forall r | d < r < |layers|
      ensures n !in layers[r]
    {
      if n in layers[r] {
        NotAfterDepth(s, r, n, d);
      }
    }
  }

  // ----- who is left over -----

  lemma {:induction false} InFlat(layers: seq<seq<string>>, r: nat, n: string)
    requires r < |layers| && n in layers[r]
    ensures n in Flat(layers)
  {
    if r < |layers| - 1 {
      InFlat(layers[..|layers| - 1], r, n);
    }
  }

  /** A cycle consists of nodes. */
  lemma OnCycleIsNode(s: BuilderState, p: seq<string>, i: nat)
    requires Cycle(CanvasGraph(s), p) && i < |p|
    ensures p[i] in NodeIds(s.nodes)
  {
    hide CanvasGraph, NodeIds;
    var k := NextOnCycle(CanvasGraph(s), p, i);
    GraphEdge(s, p[i], p[k]);
  }

  /** Where the loop ends, it has laid out every node exactly on the acyclic canvases. */
  lemma AllPlacedIffAcyclic(s: BuilderState, k: nat)
    requires ValidEdges(s) && Rounds(s, k).queue == []
    ensures NodeIds(s.nodes) <= Members(Flat(Rounds(s, k).layers)) <==> !Cyclic(CanvasGraph(s))
  {
    hide Rounds, CanvasGraph, ValidEdges, IsDepth, NodeIds, Flat;
    var layers := Rounds(s, k).layers;
    if p :| Cycle(CanvasGraph(s), p) {
      LoopEndsIff(s);
      assert !AllPlaced(s, k, p);
      var i :| 0 <= i < |p| && !IsPlaced(s, k, p[i]);
      OnCycleIsNode(s, p, i);
    } else {
      forall n | n in NodeIds(s.nodes)
        ensures n in Flat(layers)
      {
        var d := LastRowIsDepth(s, k, n);
        InFlat(layers, d, n);
      }
    }
  }

  /** With valid edges only nodes are laid out. */
  lemma OnlyNodesPlaced(s: BuilderState, k: nat, n: string)
    requires ValidEdges(s) && n in Flat(Rounds(s, k).layers)
    ensures n in NodeIds(s.nodes)
  {
    hide Rounds, Flat;
    assert IsPlaced(s, k, n);
    PlacedIsKnown(s, k, n);
  }
}
