/** What the layers are on a canvas where no ID is free twice at the start, in
    particular where IDs are distinct: each node once, below all its predecessors
    and just below one of them. */
module Layering {
  import opened Graphs
  import opened Canvas
  import opened Kahn

  /** How many edges into `n` come from outside `done`. */
  function Pending(edges: seq<CanvasEdge>, n: string, done: set<string>): nat {
    if edges == [] then 0
    else
      var last := edges[|edges| - 1];
      Pending(edges[..|edges| - 1], n, done) + if last.target == n && last.source !in done then 1 else 0
  }

  // ----- what the layers are -----

  ghost predicate EdgeInto(edges: seq<CanvasEdge>, from: set<string>, n: string) {
    exists e :: e in edges && e.target == n && e.source in from
  }

  ghost predicate OnlyFrom(edges: seq<CanvasEdge>, from: set<string>, n: string) {
    forall e :: e in edges && e.target == n ==> e.source in from
  }

  /** The known nodes of the first `k` layers. */
  ghost function Above(layers: seq<seq<string>>, k: nat, ids: set<string>): set<string>
    requires k <= |layers|
  {
    Members(Flat(layers[..k])) * ids
  }

  /** Each node stands below all its predecessors and just below one of them. */
  ghost predicate Ready(edges: seq<CanvasEdge>, ids: set<string>, layers: seq<seq<string>>, k: nat, n: string)
    requires k <= |layers|
  {
    && OnlyFrom(edges, Above(layers, k, ids), n)
    && (k > 0 ==> EdgeInto(edges, Members(layers[k - 1]) * ids, n))
  }

  ghost predicate Layered(edges: seq<CanvasEdge>, ids: set<string>, layers: seq<seq<string>>) {
    && Distinct(Flat(layers))
    && (forall k :: 0 <= k < |layers| ==> layers[k] != [])
    && (forall k, n :: 0 <= k < |layers| && n in layers[k] ==> Ready(edges, ids, layers, k, n))
  }

  /** What is in no layer still waits for someone who is in no layer. */
  ghost predicate Complete(edges: seq<CanvasEdge>, ids: set<string>, layers: seq<seq<string>>) {
    forall n :: n in ids && n !in Flat(layers) ==> !OnlyFrom(edges, Above(layers, |layers|, ids), n)
  }

  // ----- counting what is pending -----

  lemma {:induction false} PendingSplit(edges: seq<CanvasEdge>, n: string, done: set<string>, u: string)
    requires u !in done
    ensures Pending(edges, n, done) == Pending(edges, n, done + {u}) + multiset(TargetsFrom(edges, u))[n]
  {
    if edges != [] {
      PendingSplit(edges[..|edges| - 1], n, done, u);
    }
  }

  lemma TakenFrom(edges: seq<CanvasEdge>, adj: Graph, n: string, done: set<string>, u: string)
    requires forall u :: u in adj ==> adj[u] == TargetsFrom(edges, u)
    requires u !in done
    ensures Pending(edges, n, done) ==
            Pending(edges, n, done + {u} * adj.Keys) + multiset(Next(adj, u))[n]
  {
    if u in adj {
      assert {u} * adj.Keys == {u};
      PendingSplit(edges, n, done, u);
    } else {
      assert done + {u} * adj.Keys == done;
    }
  }

  lemma DistinctParts(a: seq<string>, b: seq<string>)
    requires Distinct(a + b)
    ensures Distinct(a) && Distinct(b) && forall n :: n in a ==> n !in b
  {
    forall i, k | 0 <= i < k < |a|
      ensures a[i] != a[k]
    {
      assert (a + b)[i] != (a + b)[k];
    }
    forall i, k | 0 <= i < |a| && 0 <= k < |b|
      ensures a[i] != b[k]
    {
      assert (a + b)[i] != (a + b)[|a| + k];
    }
    forall i, k | 0 <= i < k < |b|
      ensures b[i] != b[k]
    {
      assert (a + b)[|a| + i] != (a + b)[|a| + k];
    }
  }

  lemma DistinctUnion(a: seq<string>, b: seq<string>)
    requires Distinct(a) && Distinct(b) && forall n :: n in a ==> n !in b
    ensures Distinct(a + b)
  {
    forall i, k | 0 <= i < k < |a + b|
      ensures (a + b)[i] != (a + b)[k]
    {
      if i < |a| <= k {
        assert a[i] in a && b[k - |a|] in b;
      }
    }
  }

  lemma {:induction false} NothingPending(edges: seq<CanvasEdge>, n: string, done: set<string>)
    ensures Pending(edges, n, done) == 0 <==> OnlyFrom(edges, done, n)
  {
    if edges != [] {
      var front, last := edges[..|edges| - 1], edges[|edges| - 1];
      assert edges == front + [last];
      NothingPending(front, n, done);
    }
  }

  lemma {:induction false} PendingIsTarget(edges: seq<CanvasEdge>, n: string)
    ensures Pending(edges, n, {}) > 0 <==> exists e :: e in edges && e.target == n
  {
    if edges != [] {
      var front, last := edges[..|edges| - 1], edges[|edges| - 1];
      assert edges == front + [last];
      PendingIsTarget(front, n);
    }
  }

  /** Who becomes free has an edge from those just taken off. */
  lemma FreedBy(edges: seq<CanvasEdge>, n: string, done: set<string>, now: set<string>)
    requires Pending(edges, n, done) > 0 && Pending(edges, n, done + now) == 0
    ensures OnlyFrom(edges, done + now, n) && EdgeInto(edges, now, n)
  {
    NothingPending(edges, n, done);
    NothingPending(edges, n, done + now);
  }

  lemma MembersOf(s: seq<string>)
    ensures forall n :: n in Members(s) <==> n in s
  {
  }

  ghost predicate AllReady(edges: seq<CanvasEdge>, ids: set<string>, layers: seq<seq<string>>) {
    forall k, n :: 0 <= k < |layers| && n in layers[k] ==> Ready(edges, ids, layers, k, n)
  }

  lemma StillReady(edges: seq<CanvasEdge>, ids: set<string>, layers: seq<seq<string>>, layer: seq<string>)
    requires AllReady(edges, ids, layers)
    requires forall n :: n in layer ==> Ready(edges, ids, layers, |layers|, n)
    ensures AllReady(edges, ids, layers + [layer])
  {
    hide OnlyFrom, EdgeInto;
    var more := layers + [layer];
    forall k, n | 0 <= k < |more| && n in more[k]
      ensures Ready(edges, ids, more, k, n)
    {
      assert more[..k] == layers[..k];
      assert Ready(edges, ids, layers, k, n);
    }
  }

  /** A layer fits beside the ones before it. */
  lemma Room(placed: seq<string>, queue: seq<string>, known: set<string>)
    requires Distinct(placed + queue) && forall n :: n in placed + queue ==> n in known
    ensures |placed| + |queue| <= |known|
  {
    if |placed + queue| > |known| {
      Pigeonhole(placed + queue, known);
    }
  }

  lemma NowReady(edges: seq<CanvasEdge>, ids: set<string>, layers: seq<seq<string>>, layer: seq<string>, n: string)
    requires var done := Members(Flat(layers)) * ids;
             && Pending(edges, n, done) > 0
             && Pending(edges, n, done + Members(layer) * ids) == 0
    ensures Ready(edges, ids, layers + [layer], |layers| + 1, n)
  {
    hide OnlyFrom, EdgeInto, Pending;
    var done := Members(Flat(layers)) * ids;
    FreedBy(edges, n, done, Members(layer) * ids);
    FlatGrows(layers, layer);
    assert (layers + [layer])[..|layers| + 1] == layers + [layer];
    assert Above(layers + [layer], |layers| + 1, ids) == done + Members(layer) * ids;
  }

  lemma {:induction false} InDegreeIsPending(ids: set<string>, edges: seq<CanvasEdge>)
    ensures forall n :: Degree(InDegrees(ids, edges), n) == Pending(edges, n, {})
    ensures forall n :: n in InDegrees(ids, edges) <==> n in ids || Pending(edges, n, {}) > 0
  {
    if edges != [] {
      InDegreeIsPending(ids, edges[..|edges| - 1]);
    }
  }

  // ----- one round, exactly -----

  /** While no target is hit more often than its in-degree, none is queued twice. */
  lemma {:induction false} TakenOffOnce(neighbors: seq<string>, deg: Degrees)
    requires forall n :: multiset(neighbors)[n] <= Degree(deg, n)
    ensures Distinct(TakenOff(neighbors, deg).1)
    ensures forall n :: n in TakenOff(neighbors, deg).1 ==> Degree(deg, n) > 0
  {
    if neighbors != [] {
      var front, last := neighbors[..|neighbors| - 1], neighbors[|neighbors| - 1];
      SplitLast(neighbors);
      TakenOffOnce(front, deg);
      TakenOffHits(front, deg);
    }
  }

  ghost predicate Exact(edges: seq<CanvasEdge>, deg: Degrees, done: set<string>) {
    forall n :: Degree(deg, n) == Pending(edges, n, done)
  }

  lemma {:induction false} LayerOnce(
    edges: seq<CanvasEdge>, adj: Graph, queue: seq<string>, deg: Degrees, done: set<string>)
    requires forall u :: u in adj ==> adj[u] == TargetsFrom(edges, u)
    requires Distinct(queue) && (forall n :: n in queue ==> n !in done) && Exact(edges, deg, done)
    ensures var (d, next) := LayerOff(adj, queue, deg);
            && Exact(edges, d, done + Members(queue) * adj.Keys) && Distinct(next)
            && forall n :: n in next ==> Degree(deg, n) > 0 && Degree(d, n) == 0
  {
    hide Pending, TargetsFrom, TakenOff, Degree, Next;
    if queue == [] {
      assert done + Members(queue) * adj.Keys == done;
    } else {
      var front, last := queue[..|queue| - 1], queue[|queue| - 1];
      assert queue == front + [last];
      LayerOnce(edges, adj, front, deg, done);
      var now, all := done + Members(front) * adj.Keys, done + Members(queue) * adj.Keys;
      assert last !in now && all == now + {last} * adj.Keys;
      var (d, pushed) := LayerOff(adj, front, deg);
      forall n
        ensures Degree(d, n) == Pending(edges, n, all) + multiset(Next(adj, last))[n]
      {
        TakenFrom(edges, adj, n, now, last);
      }
      TakenOffHits(Next(adj, last), d);
      TakenOffOnce(Next(adj, last), d);
      LayerHits(adj, front, deg);
      DistinctUnion(pushed, TakenOff(Next(adj, last), d).1);
    }
  }

  // ----- between two rounds -----

  /** What is laid out or queued has no pending edge, and what is queued is ready for
      the next layer. */
  ghost predicate Underway(s: BuilderState, p: Progress) {
    var ids := NodeIds(s.nodes);
    && p.deg.Keys == Known(s)
    && Exact(s.edges, p.deg, Members(Flat(p.layers)) * ids)
    && Distinct(Flat(p.layers) + p.queue)
    && (forall n :: n in Flat(p.layers) + p.queue <==> n in p.deg && Degree(p.deg, n) == 0)
    && (forall k :: 0 <= k < |p.layers| ==> p.layers[k] != [])
    && AllReady(s.edges, ids, p.layers)
    && (forall n :: n in p.queue ==> Ready(s.edges, ids, p.layers, |p.layers|, n))
  }

  lemma KnownIds(s: BuilderState, n: string)
    ensures n in Known(s) <==> n in NodeIds(s.nodes) || Pending(s.edges, n, {}) > 0
  {
    hide NodeIds;
    PendingIsTarget(s.edges, n);
  }

  lemma Begins(s: BuilderState)
    requires Distinct(Start(s).queue)
    ensures Underway(s, Start(s))
  {
    hide NodeIds, Pending, Free, InDegrees;
    var ids, p := NodeIds(s.nodes), Start(s);
    assert Members([]) * ids == {} && Flat([]) + p.queue == p.queue;
    InDegreeIsPending(ids, s.edges);
    forall n
      ensures n in p.deg <==> n in Known(s)
    {
      KnownIds(s, n);
    }
    forall n | n in p.queue
      ensures Ready(s.edges, ids, [], 0, n)
    {
      NothingPending(s.edges, n, {});
    }
    assert forall n :: n in p.queue <==> n in p.deg && Degree(p.deg, n) == 0;
  }

  lemma {:induction false} SameKeys(s: BuilderState, queue: seq<string>, deg: Degrees)
    requires deg.Keys == Known(s)
    ensures LayerOff(CanvasGraph(s), queue, deg).0.Keys == Known(s)
  {
    hide CanvasGraph, TakenOff, Known;
    if queue != [] {
      var front, last := queue[..|queue| - 1], queue[|queue| - 1];
      SameKeys(s, front, deg);
      TakenOffHits(Next(CanvasGraph(s), last), LayerOff(CanvasGraph(s), front, deg).0);
      TargetsKnown(s, last);
    }
  }

  lemma TargetsKnown(s: BuilderState, u: string)
    ensures Members(Next(CanvasGraph(s), u)) <= Known(s)
  {
    forall n | n in Next(CanvasGraph(s), u)
      ensures n in Known(s)
    {
      assert Edge(CanvasGraph(s), u, n);
      GraphEdge(s, u, n);
    }
  }

  lemma DegreeDrops(g: Graph, p: Progress)
    requires p.queue != []
    ensures forall n :: Degree(Round(g, p).deg, n) <= Degree(p.deg, n)
  {
    hide LayerOff, Degree;
    LayerHits(g, p.queue, p.deg);
  }

  /** What is placed next. */
  lemma NextPlaced(s: BuilderState, p: Progress, q: Progress, ids: set<string>)
    requires Underway(s, p) && p.queue != [] && q == Round(CanvasGraph(s), p) && ids == NodeIds(s.nodes)
    ensures Exact(s.edges, q.deg, Members(Flat(p.layers)) * ids + Members(p.queue) * ids)
    ensures Distinct(q.queue) && q.deg.Keys == Known(s)
    ensures forall n :: n in q.queue <==> Degree(p.deg, n) > 0 && Degree(q.deg, n) == 0
  {
    hide NodeIds, Pending, Flat, Ready, AllReady, TargetsFrom, LayerOff, Known, EdgeFrom, Exact;
    var g := CanvasGraph(s);
    DistinctParts(Flat(p.layers), p.queue);
    MembersOf(Flat(p.layers));
    LayerOnce(s.edges, g, p.queue, p.deg, Members(Flat(p.layers)) * ids);
    SameKeys(s, p.queue, p.deg);
    LayerHits(g, p.queue, p.deg);
    assert g.Keys == ids;
  }

  lemma Continues(s: BuilderState, p: Progress)
    requires Underway(s, p) && p.queue != []
    ensures Underway(s, Round(CanvasGraph(s), p))
  {
    hide NodeIds, Flat, Ready, AllReady, Members, Distinct, LayerOff, CanvasGraph, Exact, Known;
    var ids, q, flat := NodeIds(s.nodes), Round(CanvasGraph(s), p), Flat(p.layers);
    NextPlaced(s, p, q, ids);
    FlatGrows(p.layers, p.queue);
    assert Members(flat + p.queue) * ids == Members(flat) * ids + Members(p.queue) * ids by {
      MembersOf(flat);
      MembersOf(p.queue);
      MembersOf(flat + p.queue);
    }
    StillReady(s.edges, ids, p.layers, p.queue);
    forall n | n in q.queue
      ensures Ready(s.edges, ids, q.layers, |q.layers|, n)
    {
      FreedNow(s, p, q, n);
    }
    DistinctUnion(flat + p.queue, q.queue);
    DegreeDrops(CanvasGraph(s), p);
  }

  lemma FreedNow(s: BuilderState, p: Progress, q: Progress, n: string)
    requires Underway(s, p) && p.queue != [] && Degree(p.deg, n) > 0 && Degree(q.deg, n) == 0
    requires Exact(s.edges, q.deg, Members(Flat(p.layers)) * NodeIds(s.nodes) + Members(p.queue) * NodeIds(s.nodes))
    requires q.layers == p.layers + [p.queue]
    ensures Ready(s.edges, NodeIds(s.nodes), q.layers, |q.layers|, n)
  {
    hide NodeIds, Flat, Ready, AllReady, Members, Distinct, Pending, Known;
    NowReady(s.edges, NodeIds(s.nodes), p.layers, p.queue, n);
  }

  lemma {:induction false} AlwaysUnderway(s: BuilderState, k: nat)
    requires Distinct(Start(s).queue)
    ensures Underway(s, Rounds(s, k))
  {
    hide Underway, CanvasGraph, LayerOff, Start;
    if k == 0 {
      Begins(s);
    } else {
      AlwaysUnderway(s, k - 1);
      if Rounds(s, k - 1).queue != [] {
        Continues(s, Rounds(s, k - 1));
      }
    }
  }

  /** Every round but an idle one lays something out. */
  lemma {:induction false} LayersFill(s: BuilderState, k: nat)
    requires Distinct(Start(s).queue) && Rounds(s, k).queue != []
    ensures |Flat(Rounds(s, k).layers)| >= k
  {
    hide Underway, CanvasGraph, LayerOff, Start, Flat;
    if k > 0 {
      LayersFill(s, k - 1);
      FlatGrows(Rounds(s, k - 1).layers, Rounds(s, k - 1).queue);
    }
  }

  /** The loop ends where no ID is free twice, however cyclic the canvas is. */
  lemma EndsIfFreeDistinct(s: BuilderState)
    requires Distinct(Start(s).queue)
    ensures LoopEnds(s)
  {
    hide Rounds, Known, Flat, Exact, AllReady, Ready, Start, Distinct;
    var k := |Known(s)|;
    var p := Rounds(s, k);
    if p.queue != [] {
      AlwaysUnderway(s, k);
      LayersFill(s, k);
      Room(Flat(p.layers), p.queue, Known(s));
    }
  }

  lemma EndsIfDistinct(s: BuilderState)
    requires UniqueNodeIds(s.nodes)
    ensures Distinct(Start(s).queue) && LoopEnds(s)
  {
    hide LoopEnds, InDegrees;
    EndsIfFreeDistinct(s);
  }

  /** The layers of a canvas on which no ID is free twice. */
  lemma LayersAreOrdered(s: BuilderState, k: nat)
    requires Distinct(Start(s).queue) && Rounds(s, k).queue == []
    ensures Layered(s.edges, NodeIds(s.nodes), Rounds(s, k).layers)
    ensures Complete(s.edges, NodeIds(s.nodes), Rounds(s, k).layers)
  {
    hide OnlyFrom, NodeIds, Pending, Flat, Members, Ready, Rounds, Start, Known, Distinct;
    AlwaysUnderway(s, k);
    var p, ids := Rounds(s, k), NodeIds(s.nodes);
    var layers := p.layers;
    assert Flat(layers) + [] == Flat(layers) && layers[..|layers|] == layers;
    forall n | n in ids && n !in Flat(layers)
      ensures !OnlyFrom(s.edges, Above(layers, |layers|, ids), n)
    {
      NothingPending(s.edges, n, Members(Flat(layers)) * ids);
      IdsAreKnown(s, n);
    }
  }

  lemma IdsAreKnown(s: BuilderState, n: string)
    requires n in NodeIds(s.nodes)
    ensures n in Known(s)
  {
  }
}
