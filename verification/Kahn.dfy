/** The layers of the auto-layout: Kahn's algorithm on in-degrees, one layer at a
    time, with parallel edges counted as often as they occur. */
module Kahn {
  import opened Graphs
  import opened Canvas

  type Degrees = map<string, nat>

  /** `inDegree.get(n) || 0` */
  function Degree(deg: Degrees, n: string): nat {
    if n in deg then deg[n] else 0
  }

  // ----- the loop as functions -----

  /** In-degrees of the nodes and of all edge targets. */
  function InDegrees(ids: set<string>, edges: seq<CanvasEdge>): Degrees {
    if edges == [] then map n | n in ids :: 0
    else
      var deg, t := InDegrees(ids, edges[..|edges| - 1]), edges[|edges| - 1].target;
      deg[t := Degree(deg, t) + 1]
  }

  /** Takes a node's edges off the in-degrees: `(inDegree.get(n) || 1) - 1` for each
      target, which is queued where that is 0. */
  function TakenOff(neighbors: seq<string>, deg: Degrees): (Degrees, seq<string>) {
    if neighbors == [] then (deg, [])
    else
      var (d, pushed) := TakenOff(neighbors[..|neighbors| - 1], deg);
      var n := neighbors[|neighbors| - 1];
      var newDeg := if Degree(d, n) != 0 then Degree(d, n) - 1 else 0;
      (d[n := newDeg], if newDeg == 0 then pushed + [n] else pushed)
  }

  /** One pass of the `while` loop. */
  function LayerOff(adj: Graph, queue: seq<string>, deg: Degrees): (Degrees, seq<string>) {
    if queue == [] then (deg, [])
    else
      var (d, pushed) := LayerOff(adj, queue[..|queue| - 1], deg);
      var (d', more) := TakenOff(Next(adj, queue[|queue| - 1]), d);
      (d', pushed + more)
  }

  /** state.nodes.filter(n => (inDegree.get(n.id) || 0) === 0).map(n => n.id) */
  function Free(nodes: seq<CanvasNode>, deg: Degrees): (q: seq<string>)
    ensures forall n :: n in q <==> n in NodeIds(nodes) && Degree(deg, n) == 0
    ensures UniqueNodeIds(nodes) ==> Distinct(q)
  {
    if nodes == [] then []
    else
      var front, last := nodes[..|nodes| - 1], nodes[|nodes| - 1];
      assert nodes == front + [last];
      Free(front, deg) + if Degree(deg, last.id) == 0 then [last.id] else []
  }

  datatype Progress = Progress(layers: seq<seq<string>>, queue: seq<string>, deg: Degrees)

  function Start(s: BuilderState): Progress {
    var deg := InDegrees(NodeIds(s.nodes), s.edges);
    Progress([], Free(s.nodes, deg), deg)
  }

  function Round(g: Graph, p: Progress): Progress {
    if p.queue == [] then p
    else
      var (deg, next) := LayerOff(g, p.queue, p.deg);
      Progress(p.layers + [p.queue], next, deg)
  }

  function Rounds(s: BuilderState, k: nat): Progress {
    if k == 0 then Start(s) else Round(CanvasGraph(s), Rounds(s, k - 1))
  }

  ghost predicate LoopEnds(s: BuilderState) {
    exists k: nat :: Rounds(s, k).queue == []
  }

  function Flat(layers: seq<seq<string>>): seq<string> {
    if layers == [] then [] else Flat(layers[..|layers| - 1]) + layers[|layers| - 1]
  }

  ghost function Members(s: seq<string>): set<string> {
    set n | n in s
  }

  /** All IDs that occur. */
  ghost function Known(s: BuilderState): set<string> {
    NodeIds(s.nodes) + set e | e in s.edges :: e.target
  }

  // ----- the loop as a loop -----

  method BuildDegrees(s: BuilderState) returns (adj: Graph, inDegree: Degrees)
    ensures adj == CanvasGraph(s)
    ensures inDegree == InDegrees(NodeIds(s.nodes), s.edges)
  {
    hide NodeIds, TargetsFrom, InDegrees;
    NoEdges(NodeIds(s.nodes));
    adj := map n | n in NodeIds(s.nodes) :: [];
    inDegree := map n | n in NodeIds(s.nodes) :: 0;
    var i := 0;
    while i < |s.edges|
      invariant i <= |s.edges|
      invariant adj.Keys == NodeIds(s.nodes)
      invariant forall a :: a in adj ==> adj[a] == TargetsFrom(s.edges[..i], a)
      invariant inDegree == InDegrees(NodeIds(s.nodes), s.edges[..i])
    {
      var e := s.edges[i];
      OneMoreEdge(NodeIds(s.nodes), s.edges, i);
      if e.source in adj {
        adj := adj[e.source := adj[e.source] + [e.target]];
      }
      inDegree := inDegree[e.target := Degree(inDegree, e.target) + 1];
      i := i + 1;
    }
    assert s.edges[..i] == s.edges;
  }

  lemma NoEdges(ids: set<string>)
    ensures forall a :: TargetsFrom([], a) == []
    ensures InDegrees(ids, []) == map n | n in ids :: 0
  {
  }

  lemma OneMoreEdge(ids: set<string>, edges: seq<CanvasEdge>, i: nat)
    requires i < |edges|
    ensures forall a :: TargetsFrom(edges[..i + 1], a) ==
                        TargetsFrom(edges[..i], a) + if edges[i].source == a then [edges[i].target] else []
    ensures var deg, t := InDegrees(ids, edges[..i]), edges[i].target;
            InDegrees(ids, edges[..i + 1]) == deg[t := Degree(deg, t) + 1]
  {
    assert edges[..i + 1][..i] == edges[..i];
  }

  method TakeOff(neighbors: seq<string>, deg: Degrees, next: seq<string>) returns (after: Degrees, pushed: seq<string>)
    ensures after == TakenOff(neighbors, deg).0 && pushed == next + TakenOff(neighbors, deg).1
  {
    after, pushed := deg, next;
    var j := 0;
    while j < |neighbors|
      invariant j <= |neighbors|
      invariant after == TakenOff(neighbors[..j], deg).0 && pushed == next + TakenOff(neighbors[..j], deg).1
    {
      assert neighbors[..j + 1][..j] == neighbors[..j];
      var n := neighbors[j];
      // (inDegree.get(n) || 1) - 1
      var newDeg := if n in after && after[n] != 0 then after[n] - 1 else 0;
      after := after[n := newDeg];
      if newDeg == 0 {
        pushed := pushed + [n];
      }
      j := j + 1;
    }
    assert neighbors[..j] == neighbors;
  }

  method TakeLayer(adj: Graph, queue: seq<string>, deg: Degrees) returns (after: Degrees, next: seq<string>)
    ensures (after, next) == LayerOff(adj, queue, deg)
  {
    hide TakenOff, Next;
    after, next := deg, [];
    var i := 0;
    while i < |queue|
      invariant i <= |queue| && (after, next) == LayerOff(adj, queue[..i], deg)
    {
      assert queue[..i + 1][..i] == queue[..i];
      after, next := TakeOff(Next(adj, queue[i]), after, next);
      i := i + 1;
    }
    assert queue[..i] == queue;
  }

  /** Where the loop ends, these are its layers. */
  method Layers(s: BuilderState) returns (layers: seq<seq<string>>)
    requires LoopEnds(s)
    ensures exists k: nat :: Rounds(s, k).queue == [] && Rounds(s, k).layers == layers
  {
    hide CanvasGraph, LayerOff, Free, InDegrees, NodeIds;
    ghost var last: nat :| Rounds(s, last).queue == [];
    var adj, deg := BuildDegrees(s);
    layers := [];
    var queue := Free(s.nodes, deg);
    ghost var k: nat := 0;
    while queue != []
      invariant Rounds(s, k) == Progress(layers, queue, deg)
      invariant k <= last
      decreases last - k
    {
      var next;
      deg, next := TakeLayer(adj, queue, deg);
      layers := layers + [queue];
      queue := next;
      k := k + 1;
    }
  }

  lemma {:induction false} StaysEmpty(s: BuilderState, k: nat, m: nat)
    requires Rounds(s, k).queue == [] && k <= m
    ensures Rounds(s, m) == Rounds(s, k)
  {
    hide LayerOff, Start, CanvasGraph;
    if k < m {
      StaysEmpty(s, k, m - 1);
    }
  }

  // ----- what one round does -----

  /** Less whatever is taken off, but never below 0. */
  function Less(d: nat, t: nat): nat {
    if t <= d then d - t else 0
  }

  lemma SplitLast(s: seq<string>)
    requires s != []
    ensures multiset(s) == multiset(s[..|s| - 1]) + multiset{s[|s| - 1]}
  {
    assert s == s[..|s| - 1] + [s[|s| - 1]];
  }

  lemma {:induction false} TakenOffKeys(neighbors: seq<string>, deg: Degrees)
    ensures TakenOff(neighbors, deg).0.Keys == deg.Keys + Members(neighbors)
  {
    hide TakenOff;
    if neighbors == [] {
      NoTargets(deg);
    } else {
      var front, n := neighbors[..|neighbors| - 1], neighbors[|neighbors| - 1];
      TakenOffKeys(front, deg);
      LastTakenOff(neighbors, deg);
      assert Members(neighbors) == Members(front) + {n} by {
        assert neighbors == front + [n];
      }
    }
  }

  lemma {:induction false} TakenOffDegrees(neighbors: seq<string>, deg: Degrees)
    ensures forall n :: Degree(TakenOff(neighbors, deg).0, n) == Less(Degree(deg, n), multiset(neighbors)[n])
  {
    hide TakenOff;
    if neighbors == [] {
      NoTargets(deg);
    } else {
      TakenOffDegrees(neighbors[..|neighbors| - 1], deg);
      SplitLast(neighbors);
      LastTakenOff(neighbors, deg);
    }
  }

  /** A target is queued exactly if it is hit and then has in-degree 0. */
  lemma {:induction false} TakenOffHits(neighbors: seq<string>, deg: Degrees)
    ensures var (d, pushed) := TakenOff(neighbors, deg);
            && (forall n :: Degree(d, n) == Less(Degree(deg, n), multiset(neighbors)[n]))
            && (forall n :: n in pushed <==> multiset(neighbors)[n] > 0 && Degree(d, n) == 0)
            && d.Keys == deg.Keys + Members(neighbors)
  {
    hide TakenOff, Less, Members;
    TakenOffKeys(neighbors, deg);
    TakenOffDegrees(neighbors, deg);
    if neighbors == [] {
      NoTargets(deg);
    } else {
      TakenOffHits(neighbors[..|neighbors| - 1], deg);
      SplitLast(neighbors);
      LastTakenOff(neighbors, deg);
    }
  }

  lemma LastTakenOff(neighbors: seq<string>, deg: Degrees)
    requires neighbors != []
    ensures var (d, pushed) := TakenOff(neighbors[..|neighbors| - 1], deg);
            var n := neighbors[|neighbors| - 1];
            var left := if Degree(d, n) != 0 then Degree(d, n) - 1 else 0;
            TakenOff(neighbors, deg) == (d[n := left], if left == 0 then pushed + [n] else pushed)
  {
  }

  /** Which hits of the targets, from left to right, bring an in-degree to 0. */
  predicate Frees(neighbors: seq<string>, deg: Degrees, i: nat)
    requires i < |neighbors|
  {
    Degree(deg, neighbors[i]) <= multiset(neighbors[..i + 1])[neighbors[i]]
  }

  ghost predicate Increasing(at: seq<nat>) {
    forall i, k :: 0 <= i < k < |at| ==> at[i] < at[k]
  }

  /** The targets are queued from left to right, one for each hit that frees one. */
  lemma {:induction false} TakenOffInOrder(neighbors: seq<string>, deg: Degrees) returns (at: seq<nat>)
    ensures var pushed := TakenOff(neighbors, deg).1;
            && |at| == |pushed| && Increasing(at)
            && (forall m :: 0 <= m < |at| ==> at[m] < |neighbors| && pushed[m] == neighbors[at[m]])
            && forall i :: 0 <= i < |neighbors| ==> (i in at <==> Frees(neighbors, deg, i))
  {
    at := [];
    if neighbors != [] {
      var n := |neighbors| - 1;
      var front := neighbors[..n];
      at := TakenOffInOrder(front, deg);
      TakenOffHits(front, deg);
      SplitLast(neighbors);
      assert neighbors[..n + 1] == neighbors;
      forall i | 0 <= i < n
        ensures Frees(neighbors, deg, i) <==> Frees(front, deg, i)
      {
        assert neighbors[..i + 1] == front[..i + 1];
      }
      if Frees(neighbors, deg, n) {
        at := at + [n];
      }
    }
  }

  /** All targets of a layer, from left to right. */
  function AllNext(adj: Graph, queue: seq<string>): seq<string> {
    if queue == [] then [] else AllNext(adj, queue[..|queue| - 1]) + Next(adj, queue[|queue| - 1])
  }

  lemma {:induction false} TakenOffAppend(a: seq<string>, b: seq<string>, deg: Degrees)
    ensures var (d, one) := TakenOff(a, deg);
            var (d', two) := TakenOff(b, d);
            TakenOff(a + b, deg) == (d', one + two)
  {
    if b == [] {
      assert a + b == a;
      assert TakenOff(a, deg).1 + [] == TakenOff(a, deg).1;
    } else {
      var front, n := b[..|b| - 1], b[|b| - 1];
      TakenOffAppend(a, front, deg);
      assert (a + b)[..|a + b| - 1] == a + front;
      var one := TakenOff(a, deg).1;
      var two := TakenOff(front, TakenOff(a, deg).0).1;
      assert (one + two) + [n] == one + (two + [n]);
    }
  }

  /** A round takes off all targets of its layer from left to right, so
      `TakenOffInOrder` gives the order of the next one. */
  lemma {:induction false} LayerInOrder(adj: Graph, queue: seq<string>, deg: Degrees)
    ensures LayerOff(adj, queue, deg) == TakenOff(AllNext(adj, queue), deg)
  {
    hide TakenOff;
    if queue == [] {
      NoTargets(deg);
    } else {
      LayerInOrder(adj, queue[..|queue| - 1], deg);
      TakenOffAppend(AllNext(adj, queue[..|queue| - 1]), Next(adj, queue[|queue| - 1]), deg);
    }
  }

  lemma NoTargets(deg: Degrees)
    ensures TakenOff([], deg) == (deg, [])
  {
  }

  /** The first layer lists the free nodes in their order, once for each of them. */
  lemma {:induction false} FreeInOrder(a: seq<CanvasNode>, b: seq<CanvasNode>, deg: Degrees)
    ensures Free(a + b, deg) == Free(a, deg) + Free(b, deg)
    ensures |a| == 1 ==> Free(a, deg) == if Degree(deg, a[0].id) == 0 then [a[0].id] else []
  {
    hide Free, NodeIds, UniqueNodeIds, Distinct;
    if b == [] {
      assert a + b == a;
      NoneFree(deg);
    } else {
      var front, last := b[..|b| - 1], b[|b| - 1];
      FreeInOrder(a, front, deg);
      LastFree(front, last, deg);
      LastFree(a + front, last, deg);
      assert b == front + [last] && a + b == a + front + [last];
    }
    if |a| == 1 {
      NoneFree(deg);
      LastFree([], a[0], deg);
      assert a == [] + [a[0]];
    }
  }

  lemma NoneFree(deg: Degrees)
    ensures Free([], deg) == []
  {
  }

  lemma LastFree(front: seq<CanvasNode>, last: CanvasNode, deg: Degrees)
    ensures Free(front + [last], deg) == Free(front, deg) + if Degree(deg, last.id) == 0 then [last.id] else []
  {
    assert (front + [last])[..|front|] == front;
  }

  /** How often a layer hits `n`. */
  function Hits(adj: Graph, queue: seq<string>, n: string): nat {
    if queue == [] then 0
    else Hits(adj, queue[..|queue| - 1], n) + multiset(Next(adj, queue[|queue| - 1]))[n]
  }

  ghost predicate EdgeFrom(g: Graph, queue: seq<string>, n: string) {
    exists u :: u in queue && Edge(g, u, n)
  }

  lemma {:induction false} HitByEdge(adj: Graph, queue: seq<string>, n: string)
    ensures Hits(adj, queue, n) > 0 <==> EdgeFrom(adj, queue, n)
  {
    if queue != [] {
      var front, last := queue[..|queue| - 1], queue[|queue| - 1];
      HitByEdge(adj, front, n);
      assert multiset(Next(adj, last))[n] > 0 <==> Edge(adj, last, n);
      assert queue == front + [last];
      if EdgeFrom(adj, queue, n) {
        var u :| u in queue && Edge(adj, u, n);
        assert u in front || u == last;
      }
    }
  }

  lemma {:induction false} LayerHits(adj: Graph, queue: seq<string>, deg: Degrees)
    ensures var (d, pushed) := LayerOff(adj, queue, deg);
            && (forall n :: Degree(d, n) == Less(Degree(deg, n), Hits(adj, queue, n)))
            && (forall n :: n in pushed <==> Hits(adj, queue, n) > 0 && Degree(d, n) == 0)
  {
    hide TakenOff, Next, Degree;
    if queue != [] {
      var front, last := queue[..|queue| - 1], queue[|queue| - 1];
      LayerHits(adj, front, deg);
      var (d, pushed) := LayerOff(adj, front, deg);
      var (d', more) := TakenOff(Next(adj, last), d);
      TakenOffHits(Next(adj, last), d);
      HitCounts(adj, queue);
      assert LayerOff(adj, queue, deg) == (d', pushed + more);
      forall n
        ensures n in pushed + more <==> Hits(adj, queue, n) > 0 && Degree(d', n) == 0
      {
        assert n in pushed + more <==> n in pushed || n in more;
      }
    }
  }

  lemma HitCounts(adj: Graph, queue: seq<string>)
    requires queue != []
    ensures forall n :: Hits(adj, queue, n) ==
                        Hits(adj, queue[..|queue| - 1], n) + multiset(Next(adj, queue[|queue| - 1]))[n]
  {
  }

  /** What a round queues: exactly the targets of the layer that have in-degree 0
      afterwards.  In-degree 0 lasts. */
  lemma RoundQueues(g: Graph, p: Progress)
    requires p.queue != []
    ensures var q := Round(g, p);
            && q.layers == p.layers + [p.queue]
            && (forall n :: n in q.queue <==> EdgeFrom(g, p.queue, n) && Degree(q.deg, n) == 0)
            && (forall n :: Degree(p.deg, n) == 0 ==> Degree(q.deg, n) == 0)
  {
    hide LayerOff, EdgeFrom, Degree, Hits;
    LayerHits(g, p.queue, p.deg);
    forall n
      ensures Hits(g, p.queue, n) > 0 <==> EdgeFrom(g, p.queue, n)
    {
      HitByEdge(g, p.queue, n);
    }
  }

  // ----- when the loop ends -----

  /** Laid out or queued after `k` rounds. */
  ghost predicate IsPlaced(s: BuilderState, k: nat, n: string) {
    n in Flat(Rounds(s, k).layers) + Rounds(s, k).queue
  }

  lemma FlatGrows(layers: seq<seq<string>>, layer: seq<string>)
    ensures Flat(layers + [layer]) == Flat(layers) + layer
  {
    assert (layers + [layer])[..|layers|] == layers;
  }

  /** What a round adds to the placed IDs is its queue. */
  lemma PlacedGrows(s: BuilderState, k: nat, n: string)
    ensures IsPlaced(s, k + 1, n) <==> IsPlaced(s, k, n) || n in Rounds(s, k + 1).queue
  {
    hide LayerOff, Flat, CanvasGraph;
    var p := Rounds(s, k);
    FlatGrows(p.layers, p.queue);
  }

  lemma {:induction false} PlacedIsFree(s: BuilderState, k: nat, n: string)
    requires IsPlaced(s, k, n)
    ensures Degree(Rounds(s, k).deg, n) == 0
  {
    hide LayerOff, Flat, CanvasGraph, Degree, InDegrees;
    if k > 0 {
      var p := Rounds(s, k - 1);
      PlacedGrows(s, k - 1, n);
      if p.queue != [] {
        RoundQueues(CanvasGraph(s), p);
        if IsPlaced(s, k - 1, n) {
          PlacedIsFree(s, k - 1, n);
        }
      } else {
        PlacedIsFree(s, k - 1, n);
      }
    } else {
      NothingLaidOut(s);
    }
  }

  lemma NothingLaidOut(s: BuilderState)
    ensures Flat(Rounds(s, 0).layers) == [] && Flat(Rounds(s, 0).layers) + Rounds(s, 0).queue == Start(s).queue
  {
  }

  lemma {:induction false} HasInDegree(ids: set<string>, edges: seq<CanvasEdge>, e: CanvasEdge)
    requires e in edges
    ensures Degree(InDegrees(ids, edges), e.target) > 0
  {
    var front, last := edges[..|edges| - 1], edges[|edges| - 1];
    assert edges == front + [last];
    if e in front {
      HasInDegree(ids, front, e);
    }
  }

  lemma GraphEdge(s: BuilderState, a: string, b: string)
    requires Edge(CanvasGraph(s), a, b)
    ensures a in NodeIds(s.nodes) && exists e :: e in s.edges && e.source == a && e.target == b
  {
  }

  ghost predicate AllPlaced(s: BuilderState, k: nat, p: seq<string>) {
    forall i :: 0 <= i < |p| ==> IsPlaced(s, k, p[i])
  }

  /** The node after the `i`-th one of a cycle. */
  lemma NextOnCycle(g: Graph, p: seq<string>, i: nat) returns (k: nat)
    requires Cycle(g, p) && i < |p|
    ensures k < |p| && Edge(g, p[i], p[k])
  {
    k := if i == |p| - 1 then 1 else i + 1;
    if i == |p| - 1 {
      assert Edge(g, p[0], p[0 + 1]);
    } else {
      assert Edge(g, p[i], p[i + 1]);
    }
  }

  lemma PrevOnCycle(g: Graph, p: seq<string>, i: nat) returns (k: nat)
    requires Cycle(g, p) && i < |p|
    ensures k < |p| && Edge(g, p[k], p[i])
  {
    k := if i == 0 then |p| - 2 else i - 1;
    assert Edge(g, p[k], p[k + 1]);
  }

  /** When the last node of a cycle is placed, it is queued. */
  lemma {:induction false} LastIsQueued(s: BuilderState, k: nat, p: seq<string>) returns (m: nat, i: nat)
    requires Cycle(CanvasGraph(s), p) && AllPlaced(s, k, p)
    ensures m <= k && AllPlaced(s, m, p) && i < |p| && p[i] in Rounds(s, m).queue
  {
    hide Rounds, IsPlaced, CanvasGraph;
    if k == 0 {
      NoCycleAtStart(s, p);
    } else if AllPlaced(s, k - 1, p) {
      m, i := LastIsQueued(s, k - 1, p);
    } else {
      m := k;
      i :| 0 <= i < |p| && !IsPlaced(s, k - 1, p[i]);
      PlacedGrows(s, k - 1, p[i]);
    }
  }

  lemma NoCycleAtStart(s: BuilderState, p: seq<string>)
    requires Cycle(CanvasGraph(s), p)
    ensures !AllPlaced(s, 0, p)
  {
    hide CanvasGraph, Flat;
    var k := PrevOnCycle(CanvasGraph(s), p, 0);
    GraphEdge(s, p[k], p[0]);
    var e :| e in s.edges && e.source == p[k] && e.target == p[0];
    HasInDegree(NodeIds(s.nodes), s.edges, e);
    NothingLaidOut(s);
    assert !IsPlaced(s, 0, p[0]);
  }

  /** A target of a queued node that has in-degree 0 after the round is queued next. */
  lemma QueuedNext(s: BuilderState, k: nat, a: string, n: string)
    requires k > 0 && a in Rounds(s, k - 1).queue && Edge(CanvasGraph(s), a, n)
    requires Degree(Rounds(s, k).deg, n) == 0
    ensures n in Rounds(s, k).queue
  {
    hide CanvasGraph, Edge, Degree, LayerOff;
    var p := Rounds(s, k - 1);
    assert p.queue != [];
    RoundQueues(CanvasGraph(s), p);
    assert EdgeFrom(CanvasGraph(s), p.queue, n);
  }

  /** From then on some node of the cycle is always queued. */
  lemma {:induction false} CycleGoesOn(s: BuilderState, m: nat, i: nat, p: seq<string>, k: nat) returns (j: nat)
    requires Cycle(CanvasGraph(s), p) && AllPlaced(s, m, p) && i < |p| && p[i] in Rounds(s, m).queue && m <= k
    ensures j < |p| && p[j] in Rounds(s, k).queue && AllPlaced(s, k, p)
  {
    if m == k {
      j := i;
    } else {
      var l := CycleGoesOn(s, m, i, p, k - 1);
      hide IsPlaced, CanvasGraph, Rounds, Edge, Degree, Cycle;
      j := NextOnCycle(CanvasGraph(s), p, l);
      PlacedStays(s, k - 1, p);
      PlacedIsFree(s, k, p[j]);
      QueuedNext(s, k, p[l], p[j]);
    }
  }

  lemma PlacedStays(s: BuilderState, k: nat, p: seq<string>)
    requires AllPlaced(s, k, p)
    ensures AllPlaced(s, k + 1, p)
  {
    hide Rounds, IsPlaced;
    forall i | 0 <= i < |p|
      ensures IsPlaced(s, k + 1, p[i])
    {
      PlacedGrows(s, k, p[i]);
    }
  }

  /** Once a whole cycle is placed, the loop never ends. */
  lemma PlacedCycleNeverEnds(s: BuilderState, k: nat, p: seq<string>)
    requires Cycle(CanvasGraph(s), p) && AllPlaced(s, k, p)
    ensures !LoopEnds(s)
  {
    hide Rounds, CanvasGraph, AllPlaced;
    var m, i := LastIsQueued(s, k, p);
    forall r: nat
      ensures Rounds(s, r).queue != []
    {
      if r >= m {
        var j := CycleGoesOn(s, m, i, p, r);
      } else if Rounds(s, r).queue == [] {
        StaysEmpty(s, r, m);
      }
    }
  }

  /** After the first round, who is queued has an edge from the layer before. */
  lemma QueuedByPrevious(s: BuilderState, k: nat, n: string) returns (u: string)
    requires k > 0 && n in Rounds(s, k).queue
    ensures u in Rounds(s, k - 1).queue && Edge(CanvasGraph(s), u, n)
  {
    hide CanvasGraph, LayerOff, Edge, Degree;
    var before := Rounds(s, k - 1);
    assert before.queue != [];
    RoundQueues(CanvasGraph(s), before);
    u :| u in before.queue && Edge(CanvasGraph(s), u, n);
  }

  /** A queued ID ends a path with one node from each queue so far. */
  lemma {:induction false} PathOfQueues(s: BuilderState, k: nat, n: string) returns (p: seq<string>)
    requires n in Rounds(s, k).queue
    ensures Path(CanvasGraph(s), p) && |p| == k + 1 && p[k] == n && AllPlaced(s, k, p)
    ensures p[0] in Rounds(s, 0).queue
  {
    hide CanvasGraph, Flat, AllPlaced, Path, Edge, Rounds;
    if k == 0 {
      p := [n];
      OneNodePath(CanvasGraph(s), n);
      JustQueued(s, n);
    } else {
      var u := QueuedByPrevious(s, k, n);
      var q := PathOfQueues(s, k - 1, u);
      ExtendPath(CanvasGraph(s), q, n);
      p := q + [n];
      OneMorePlaced(s, k - 1, q, n);
    }
  }

  lemma JustQueued(s: BuilderState, n: string)
    requires n in Rounds(s, 0).queue
    ensures AllPlaced(s, 0, [n])
  {
    hide Rounds, Flat;
  }

  lemma OneMorePlaced(s: BuilderState, k: nat, q: seq<string>, n: string)
    requires AllPlaced(s, k, q) && n in Rounds(s, k + 1).queue
    ensures AllPlaced(s, k + 1, q + [n])
  {
    hide Rounds, IsPlaced;
    var p := q + [n];
    forall i | 0 <= i < |p|
      ensures IsPlaced(s, k + 1, p[i])
    {
      PlacedGrows(s, k, p[i]);
    }
  }

  lemma {:induction false} PlacedIsKnown(s: BuilderState, k: nat, n: string)
    requires IsPlaced(s, k, n)
    ensures n in Known(s)
  {
    hide LayerOff, Flat, CanvasGraph, NodeIds;
    if k == 0 {
      NothingLaidOut(s);
    } else {
      PlacedGrows(s, k - 1, n);
      if IsPlaced(s, k - 1, n) {
        PlacedIsKnown(s, k - 1, n);
      } else {
        var u := QueuedByPrevious(s, k, n);
        GraphEdge(s, u, n);
      }
    }
  }

  /** A loop that is still running after as many rounds as there are IDs has placed a
      whole cycle. */
  lemma LongLoopPlacesCycle(s: BuilderState) returns (p: seq<string>)
    requires Rounds(s, |Known(s)|).queue != []
    ensures Cycle(CanvasGraph(s), p) && AllPlaced(s, |Known(s)|, p)
  {
    hide Rounds, CanvasGraph, Known, IsPlaced;
    var k := |Known(s)|;
    var q := PathOfQueues(s, k, Rounds(s, k).queue[0]);
    forall i | 0 <= i < |q|
      ensures q[i] in Known(s)
    {
      PlacedIsKnown(s, k, q[i]);
    }
    Pigeonhole(q, Known(s));
    var i, j :| 0 <= i < j < |q| && q[i] == q[j];
    p := q[i..j + 1];
  }

  /** When the loop ends: on any canvas, exactly if it has ended after as many rounds
      as there are IDs, and exactly if it never places a whole cycle. */
  lemma LoopEndsIff(s: BuilderState)
    ensures LoopEnds(s) <==> Rounds(s, |Known(s)|).queue == []
    ensures LoopEnds(s) <==> !exists k: nat, p :: Cycle(CanvasGraph(s), p) && AllPlaced(s, k, p)
  {
    hide Rounds, CanvasGraph, Known, AllPlaced, Cycle;
    if Rounds(s, |Known(s)|).queue != [] {
      var p := LongLoopPlacesCycle(s);
      PlacedCycleNeverEnds(s, |Known(s)|, p);
    }
    if k: nat, p :| Cycle(CanvasGraph(s), p) && AllPlaced(s, k, p) {
      PlacedCycleNeverEnds(s, k, p);
    }
  }

  /** On an acyclic canvas it ends, whatever IDs are repeated. */
  lemma EndsIfAcyclic(s: BuilderState)
    requires !Cyclic(CanvasGraph(s))
    ensures LoopEnds(s)
  {
    hide Rounds, CanvasGraph, Known, AllPlaced, Cycle;
    LoopEndsIff(s);
  }
}
