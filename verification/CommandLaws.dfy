/** What executing and undoing one command does to the set of nodes and edges. */
module CommandLaws {
  import opened Wrappers
  import opened Workflows
  import opened Canvas
  import opened Commands

  type Nodes = map<string, CanvasNode>
  type Edges = map<string, CanvasEdge>

  /** A canvas without the order of its lists. */
  datatype View = View(nodes: Nodes, edges: Edges)

  ghost predicate UniqueEdgeIds(edges: seq<CanvasEdge>) {
    forall i, k :: 0 <= i < k < |edges| ==> edges[i].id != edges[k].id
  }

  ghost predicate NodesShown(nodes: seq<CanvasNode>, m: Nodes) {
    && UniqueNodeIds(nodes)
    && (forall n :: n in nodes ==> n.id in m && m[n.id] == n)
    && (forall id :: id in m ==> m[id].id == id && m[id] in nodes)
  }

  ghost predicate EdgesShown(edges: seq<CanvasEdge>, m: Edges) {
    && UniqueEdgeIds(edges)
    && (forall e :: e in edges ==> e.id in m && m[e.id] == e)
    && (forall id :: id in m ==> m[id].id == id && m[id] in edges)
  }

  /** `s` lists each node and each edge of `v` once, under its own ID. */
  ghost predicate Shows(s: BuilderState, v: View) {
    NodesShown(s.nodes, v.nodes) && EdgesShown(s.edges, v.edges)
  }

  function Touching(m: Edges, ids: set<string>): Edges {
    map i | i in m && Touches(m[i], ids) :: m[i]
  }

  function Away(m: Edges, ids: set<string>): Edges {
    map i | i in m && !Touches(m[i], ids) :: m[i]
  }

  function Among(m: Nodes, ids: set<string>): Nodes {
    map i | i in m && i in ids :: m[i]
  }

  /** The effect of a command. */
  function Effect(a: Action, v: View): View {
    match a
    case AddNode(n) => v.(nodes := v.nodes[n.id := n])
    case DeleteNode(id) =>
      if id in v.nodes then View(v.nodes - {id}, Away(v.edges, {id})) else v
    case MoveNode(id, p, _) =>
      if id in v.nodes then v.(nodes := v.nodes[id := v.nodes[id].(position := p)]) else v
    case UpdateProperty(id, ps, _) =>
      if id in v.nodes then v.(nodes := v.nodes[id := v.nodes[id].(data := Merge(v.nodes[id].data, ps))]) else v
    case ConnectEdge(e) => v.(edges := v.edges[e.id := e])
    case DisconnectEdge(id) => v.(edges := v.edges - {id})
    case DeleteSelection(ids) => View(v.nodes - ids, Away(v.edges, ids))
  }

  function Lookup(data: map<string, Value>, k: string): Option<Value> {
    if k in data then Some(data[k]) else None
  }

  /** The old values are those the node has. */
  ghost predicate Truthful(data: map<string, Value>, ps: Properties, oldPs: Properties) {
    && (forall k :: k in oldPs ==> oldPs[k] == Lookup(data, k))
    && (forall k :: k in ps && k !in oldPs ==> ps[k] == Lookup(data, k))
  }

  /** What the caller of a command has to see to: IDs are fresh and old values true. */
  ghost predicate Fits(a: Action, v: View) {
    match a
    case AddNode(n) => n.id !in v.nodes
    case MoveNode(id, _, p) => id in v.nodes ==> v.nodes[id].position == p
    case UpdateProperty(id, ps, oldPs) => id in v.nodes ==> Truthful(v.nodes[id].data, ps, oldPs)
    case ConnectEdge(e) => e.id !in v.edges
    case _ => true
  }

  /** The command remembers what it took from `v`. */
  ghost predicate Remembers(a: Action, m: Memo, v: View) {
    match a
    case DeleteNode(id) =>
      if id in v.nodes then
        m.deletedNode == Some(v.nodes[id]) && EdgesShown(m.deletedEdges, Touching(v.edges, {id}))
      else m.deletedNode == None
    case DisconnectEdge(id) => m.deletedEdge == if id in v.edges then Some(v.edges[id]) else None
    case DeleteSelection(ids) =>
      NodesShown(m.deletedNodes, Among(v.nodes, ids)) && EdgesShown(m.deletedEdges, Touching(v.edges, ids))
    case _ => true
  }

  // ----- the list operations -----

  lemma {:induction false} WithoutShows(nodes: seq<CanvasNode>, ids: set<string>)
    requires UniqueNodeIds(nodes)
    ensures UniqueNodeIds(NodesWithout(nodes, ids)) && UniqueNodeIds(NodesAmong(nodes, ids))
    ensures forall n :: n in NodesWithout(nodes, ids) <==> n in nodes && n.id !in ids
    ensures forall n :: n in NodesAmong(nodes, ids) <==> n in nodes && n.id in ids
  {
    if nodes != [] {
      var front, last := nodes[..|nodes| - 1], nodes[|nodes| - 1];
      WithoutShows(front, ids);
      assert nodes == front + [last];
      LastIsNew(nodes);
    }
  }

  lemma LastIsNew(nodes: seq<CanvasNode>)
    requires UniqueNodeIds(nodes) && nodes != []
    ensures forall n :: n in nodes[..|nodes| - 1] ==> n.id != nodes[|nodes| - 1].id
  {
  }

  lemma {:induction false} EdgesWithoutShow(edges: seq<CanvasEdge>, ids: set<string>)
    requires UniqueEdgeIds(edges)
    ensures UniqueEdgeIds(EdgesWithout(edges, ids))
    ensures forall e :: e in EdgesWithout(edges, ids) <==> e in edges && !Touches(e, ids)
  {
    hide Touches;
    if edges != [] {
      var front, last := edges[..|edges| - 1], edges[|edges| - 1];
      EdgesWithoutShow(front, ids);
      assert edges == front + [last];
      LastEdgeIsNew(edges);
    }
  }

  lemma {:induction false} EdgesTouchingShow(edges: seq<CanvasEdge>, ids: set<string>)
    requires UniqueEdgeIds(edges)
    ensures UniqueEdgeIds(EdgesTouching(edges, ids))
    ensures forall e :: e in EdgesTouching(edges, ids) <==> e in edges && Touches(e, ids)
  {
    hide Touches;
    if edges != [] {
      var front, last := edges[..|edges| - 1], edges[|edges| - 1];
      EdgesTouchingShow(front, ids);
      assert edges == front + [last];
      LastEdgeIsNew(edges);
    }
  }

  lemma LastEdgeIsNew(edges: seq<CanvasEdge>)
    requires UniqueEdgeIds(edges) && edges != []
    ensures forall e :: e in edges[..|edges| - 1] ==> e.id != edges[|edges| - 1].id
  {
  }

  lemma {:induction false} ExceptShows(edges: seq<CanvasEdge>, id: string)
    requires UniqueEdgeIds(edges)
    ensures UniqueEdgeIds(EdgesExcept(edges, id))
    ensures forall e :: e in EdgesExcept(edges, id) <==> e in edges && e.id != id
  {
    if edges != [] {
      var front, last := edges[..|edges| - 1], edges[|edges| - 1];
      ExceptShows(front, id);
      assert edges == front + [last];
      LastEdgeIsNew(edges);
    }
  }

  /** Putting one node in, wherever. */
  lemma InsertShows(nodes: seq<CanvasNode>, m: Nodes, at: int, n: CanvasNode)
    requires NodesShown(nodes, m) && n.id !in m
    ensures NodesShown(Splice(nodes, at, n), m[n.id := n])
    ensures NodesShown(nodes + [n], m[n.id := n])
  {
    assert forall x :: x in Splice(nodes, at, n) <==> x in nodes || x == n by {
      SpliceMembers(nodes, at, n);
    }
    assert forall x :: x in nodes ==> x.id != n.id;
  }

  lemma SpliceMembers<T>(list: seq<T>, at: int, x: T)
    ensures forall y :: y in Splice(list, at, x) <==> y in list || y == x
  {
    var k := if at >= |list| then |list| else if at >= 0 then at else if |list| + at >= 0 then |list| + at else 0;
    assert list == list[..k] + list[k..];
  }

  lemma InsertEdgeShows(edges: seq<CanvasEdge>, m: Edges, at: int, e: CanvasEdge)
    requires EdgesShown(edges, m) && e.id !in m
    ensures EdgesShown(Splice(edges, at, e), m[e.id := e])
    ensures EdgesShown(edges + [e], m[e.id := e])
  {
    SpliceMembers(edges, at, e);
    assert forall x :: x in edges ==> x.id != e.id;
  }

  lemma JoinNodes(a: seq<CanvasNode>, b: seq<CanvasNode>, m: Nodes, k: Nodes)
    requires NodesShown(a, m) && NodesShown(b, k) && m.Keys !! k.Keys
    ensures NodesShown(a + b, m + k)
  {
    forall i, j | 0 <= i < j < |a + b|
      ensures (a + b)[i].id != (a + b)[j].id
    {
      if i < |a| <= j {
        assert a[i] in a && b[j - |a|] in b;
      }
    }
  }

  lemma JoinEdges(a: seq<CanvasEdge>, b: seq<CanvasEdge>, m: Edges, k: Edges)
    requires EdgesShown(a, m) && EdgesShown(b, k) && m.Keys !! k.Keys
    ensures EdgesShown(a + b, m + k)
  {
    forall i, j | 0 <= i < j < |a + b|
      ensures (a + b)[i].id != (a + b)[j].id
    {
      if i < |a| <= j {
        assert a[i] in a && b[j - |a|] in b;
      }
    }
  }

  /** Changing the one node with an ID, and not its ID. */
  lemma ReplaceShows(nodes: seq<CanvasNode>, m: Nodes, r: seq<CanvasNode>, id: string, n: CanvasNode)
    requires NodesShown(nodes, m) && |r| == |nodes| && n.id == id
    requires id in m ==> forall i :: 0 <= i < |nodes| ==> r[i] == if nodes[i].id == id then n else nodes[i]
    requires id !in m ==> r == nodes
    ensures NodesShown(r, if id in m then m[id := n] else m)
  {
    if id in m {
      var k :| 0 <= k < |nodes| && nodes[k] == m[id];
      assert r[k] == n;
      forall i | i in m
        ensures i != id ==> m[i] in r
      {
        var j :| 0 <= j < |nodes| && nodes[j] == m[i];
        assert r[j] == if i == id then n else m[i];
      }
    }
  }

  // ----- the commands -----

  ghost predicate WellKeyed(v: View) {
    && (forall id :: id in v.nodes ==> v.nodes[id].id == id)
    && (forall id :: id in v.edges ==> v.edges[id].id == id)
  }

  lemma RemoveNodes(nodes: seq<CanvasNode>, m: Nodes, ids: set<string>)
    requires NodesShown(nodes, m)
    ensures NodesShown(NodesWithout(nodes, ids), m - ids)
    ensures NodesShown(NodesAmong(nodes, ids), Among(m, ids))
  {
    WithoutShows(nodes, ids);
    hide NodesWithout, NodesAmong, UniqueNodeIds;
  }

  lemma KeepEdges(edges: seq<CanvasEdge>, m: Edges, ids: set<string>)
    requires EdgesShown(edges, m)
    ensures EdgesShown(EdgesWithout(edges, ids), Away(m, ids))
  {
    EdgesWithoutShow(edges, ids);
    hide EdgesWithout, UniqueEdgeIds, Touches;
  }

  lemma TakeEdges(edges: seq<CanvasEdge>, m: Edges, ids: set<string>)
    requires EdgesShown(edges, m)
    ensures EdgesShown(EdgesTouching(edges, ids), Touching(m, ids))
  {
    EdgesTouchingShow(edges, ids);
    hide EdgesTouching, UniqueEdgeIds, Touches;
  }

  lemma RemoveShows(s: BuilderState, v: View, ids: set<string>)
    requires Shows(s, v)
    ensures NodesShown(NodesWithout(s.nodes, ids), v.nodes - ids)
    ensures NodesShown(NodesAmong(s.nodes, ids), Among(v.nodes, ids))
    ensures EdgesShown(EdgesWithout(s.edges, ids), Away(v.edges, ids))
    ensures EdgesShown(EdgesTouching(s.edges, ids), Touching(v.edges, ids))
  {
    hide NodesShown, EdgesShown;
    RemoveNodes(s.nodes, v.nodes, ids);
    KeepEdges(s.edges, v.edges, ids);
    TakeEdges(s.edges, v.edges, ids);
  }

  lemma ExceptRemoves(s: BuilderState, v: View, id: string)
    requires Shows(s, v)
    ensures EdgesShown(EdgesExcept(s.edges, id), v.edges - {id})
  {
    ExceptShows(s.edges, id);
  }

  lemma FoundNode(s: BuilderState, v: View, id: string)
    requires Shows(s, v)
    ensures var i := NodeIndex(s.nodes, id);
            (i >= 0 <==> id in v.nodes) && (i >= 0 ==> s.nodes[i] == v.nodes[id])
  {
    var i := NodeIndex(s.nodes, id);
    if i >= 0 {
      assert s.nodes[i] in s.nodes;
    }
  }

  lemma FoundEdge(s: BuilderState, v: View, id: string)
    requires Shows(s, v)
    ensures var i := EdgeIndex(s.edges, id);
            (i >= 0 <==> id in v.edges) && (i >= 0 ==> s.edges[i] == v.edges[id])
  {
    var i := EdgeIndex(s.edges, id);
    if i >= 0 {
      assert s.edges[i] in s.edges;
    }
  }

  lemma MoveShows(nodes: seq<CanvasNode>, m: Nodes, id: string, p: Position)
    requires NodesShown(nodes, m)
    ensures NodesShown(Moved(nodes, id, p), if id in m then m[id := m[id].(position := p)] else m)
  {
    var r := Moved(nodes, id, p);
    if id in m {
      OnlyOne(nodes, m, id);
      ReplaceShows(nodes, m, r, id, m[id].(position := p));
    } else {
      assert forall i :: 0 <= i < |nodes| ==> nodes[i] in nodes;
      assert r == nodes;
    }
  }

  lemma UpdateShows(nodes: seq<CanvasNode>, m: Nodes, id: string, ps: Properties)
    requires NodesShown(nodes, m)
    ensures NodesShown(Updated(nodes, id, ps), if id in m then m[id := m[id].(data := Merge(m[id].data, ps))] else m)
  {
    hide Merge;
    var r := Updated(nodes, id, ps);
    if id in m {
      OnlyOne(nodes, m, id);
      ReplaceShows(nodes, m, r, id, m[id].(data := Merge(m[id].data, ps)));
    } else {
      assert forall i :: 0 <= i < |nodes| ==> nodes[i] in nodes;
      assert r == nodes;
    }
  }

  lemma OnlyOne(nodes: seq<CanvasNode>, m: Nodes, id: string)
    requires NodesShown(nodes, m) && id in m
    ensures forall i :: 0 <= i < |nodes| && nodes[i].id == id ==> nodes[i] == m[id]
  {
    assert forall i :: 0 <= i < |nodes| ==> nodes[i] in nodes;
  }

  /** Executing has its effect on the canvas, and the command remembers. */
  lemma ExecuteShows(a: Action, m: Memo, s: BuilderState, v: View)
    requires Shows(s, v) && Fits(a, v) && (m == BLANK || Remembers(a, m, v))
    ensures Shows(Executed(a, m, s).0, Effect(a, v))
    ensures Remembers(a, Executed(a, m, s).1, v)
  {
    hide NodesShown, EdgesShown, NodesWithout, NodesAmong, EdgesWithout, EdgesTouching, EdgesExcept;
    hide Away, Touching, Among, Touches, Moved, Updated, Merge;
    match a
    case AddNode(n) => InsertShows(s.nodes, v.nodes, 0, n);
    case DeleteNode(id) =>
      FoundNode(s, v, id);
      RemoveShows(s, v, {id});
    case MoveNode(id, p, _) => MoveShows(s.nodes, v.nodes, id, p);
    case UpdateProperty(id, ps, _) => UpdateShows(s.nodes, v.nodes, id, ps);
    case ConnectEdge(e) => InsertEdgeShows(s.edges, v.edges, 0, e);
    case DisconnectEdge(id) =>
      FoundEdge(s, v, id);
      ExceptRemoves(s, v, id);
      if id !in v.edges {
        assert v.edges - {id} == v.edges;
      }
    case DeleteSelection(ids) => RemoveShows(s, v, ids);
  }

  lemma MergeBack(data: map<string, Value>, ps: Properties, oldPs: Properties)
    ensures Merge(Merge(data, ps), oldPs) == data <==> Truthful(data, ps, oldPs)
  {
    var back := Merge(Merge(data, ps), oldPs);
    forall k
      ensures Lookup(back, k) ==
              if k in oldPs then oldPs[k] else if k in ps then ps[k] else Lookup(data, k)
    {
    }
    if Truthful(data, ps, oldPs) {
      forall k
        ensures Lookup(back, k) == Lookup(data, k)
      {
      }
      assert forall k :: k in back <==> Lookup(back, k).Some?;
      assert forall k :: k in data <==> Lookup(data, k).Some?;
    }
  }

  lemma PutBackNode(s: BuilderState, v: View, id: string, at: int, es: seq<CanvasEdge>)
    requires WellKeyed(v) && id in v.nodes && Shows(s, View(v.nodes - {id}, Away(v.edges, {id})))
    requires EdgesShown(es, Touching(v.edges, {id}))
    ensures NodesShown(Splice(s.nodes, at, v.nodes[id]), v.nodes)
    ensures EdgesShown(s.edges + es, v.edges)
  {
    hide NodesShown, EdgesShown, Touches;
    InsertShows(s.nodes, v.nodes - {id}, at, v.nodes[id]);
    assert (v.nodes - {id})[id := v.nodes[id]] == v.nodes;
    JoinEdges(s.edges, es, Away(v.edges, {id}), Touching(v.edges, {id}));
    assert Away(v.edges, {id}) + Touching(v.edges, {id}) == v.edges;
  }

  lemma PutBackSelection(s: BuilderState, v: View, ids: set<string>, ns: seq<CanvasNode>, es: seq<CanvasEdge>)
    requires Shows(s, View(v.nodes - ids, Away(v.edges, ids)))
    requires NodesShown(ns, Among(v.nodes, ids)) && EdgesShown(es, Touching(v.edges, ids))
    ensures NodesShown(s.nodes + ns, v.nodes) && EdgesShown(s.edges + es, v.edges)
  {
    hide NodesShown, EdgesShown, Touches;
    JoinNodes(s.nodes, ns, v.nodes - ids, Among(v.nodes, ids));
    assert (v.nodes - ids) + Among(v.nodes, ids) == v.nodes;
    JoinEdges(s.edges, es, Away(v.edges, ids), Touching(v.edges, ids));
    assert Away(v.edges, ids) + Touching(v.edges, ids) == v.edges;
  }

  /** Undoing a command that fitted brings back all nodes and edges. */
  lemma UndoShows(a: Action, m: Memo, s: BuilderState, v: View)
    requires WellKeyed(v) && Fits(a, v) && Remembers(a, m, v) && Shows(s, Effect(a, v))
    ensures Shows(Undone(a, m, s), v)
  {
    hide NodesShown, EdgesShown, NodesWithout, EdgesExcept, Splice;
    hide Away, Touching, Among, Touches, Moved, Updated, Merge;
    match a
    case AddNode(n) =>
      RemoveShows(s, Effect(a, v), {n.id});
      assert v.nodes[n.id := n] - {n.id} == v.nodes;
    case DeleteNode(id) =>
      if id in v.nodes {
        PutBackNode(s, v, id, m.nodeIndex, m.deletedEdges);
      }
    case MoveNode(id, p, q) =>
      MoveShows(s.nodes, Effect(a, v).nodes, id, q);
      if id in v.nodes {
        assert v.nodes[id := v.nodes[id].(position := p)][id := v.nodes[id].(position := p).(position := q)] == v.nodes;
      }
    case UpdateProperty(id, ps, oldPs) =>
      UpdateShows(s.nodes, Effect(a, v).nodes, id, oldPs);
      if id in v.nodes {
        MergeBack(v.nodes[id].data, ps, oldPs);
        assert Effect(a, v).nodes[id := v.nodes[id]] == v.nodes;
      }
    case ConnectEdge(e) =>
      ExceptRemoves(s, Effect(a, v), e.id);
      assert v.edges[e.id := e] - {e.id} == v.edges;
    case DisconnectEdge(id) =>
      if id in v.edges {
        InsertEdgeShows(s.edges, v.edges - {id}, m.edgeIndex, v.edges[id]);
        assert (v.edges - {id})[id := v.edges[id]] == v.edges;
      } else {
        assert v.edges - {id} == v.edges;
      }
    case DeleteSelection(ids) => PutBackSelection(s, v, ids, m.deletedNodes, m.deletedEdges);
  }

  // ----- the rest of the canvas -----

  /** The selection is a node of the canvas, if there is one. */
  ghost predicate Selects(s: BuilderState) {
    s.selectedNodeId.Some? ==> s.selectedNodeId.value in NodeIds(s.nodes)
  }

  lemma {:induction false} IdsWithout(nodes: seq<CanvasNode>, ids: set<string>)
    ensures NodeIds(NodesWithout(nodes, ids)) == NodeIds(nodes) - ids
  {
    if nodes == [] {
      assert NodesWithout(nodes, ids) == [];
    } else {
      var front, last := nodes[..|nodes| - 1], nodes[|nodes| - 1];
      IdsWithout(front, ids);
      assert nodes == front + [last];
      IdsAppend(front, [last]);
      IdsAppend(NodesWithout(front, ids), [last]);
      OneId(last);
      hide NodeIds;
      if last.id in ids {
        assert NodesWithout(nodes, ids) == NodesWithout(front, ids);
      }
    }
  }

  lemma OneId(n: CanvasNode)
    ensures NodeIds([n]) == {n.id} && NodeIds([]) == {}
  {
    assert n in [n];
  }

  lemma IdsAppend(a: seq<CanvasNode>, b: seq<CanvasNode>)
    ensures NodeIds(a + b) == NodeIds(a) + NodeIds(b)
  {
  }

  /** Executing a command keeps the selection where its node is still there, clears it
      otherwise, and leaves the validation errors alone. */
  lemma ExecuteKeepsSelection(a: Action, m: Memo, s: BuilderState)
    requires Selects(s)
    ensures var out := Executed(a, m, s).0;
            && out.selectedNodeId ==
                 (if s.selectedNodeId.Some? && s.selectedNodeId.value in NodeIds(out.nodes)
                  then s.selectedNodeId else None)
            && Selects(out) && out.validationErrors == s.validationErrors
  {
    var out := Executed(a, m, s).0;
    match a
    case DeleteNode(id) => IdsWithout(s.nodes, {id});
    case DeleteSelection(ids) => IdsWithout(s.nodes, ids);
    case MoveNode(id, p, _) => SameIdsInPlace(s.nodes, out.nodes);
    case UpdateProperty(id, ps, _) => SameIdsInPlace(s.nodes, out.nodes);
    case _ =>
  }

  lemma SameIdsInPlace(a: seq<CanvasNode>, b: seq<CanvasNode>)
    requires |a| == |b| && forall i :: 0 <= i < |a| ==> a[i].id == b[i].id
    ensures NodeIds(a) == NodeIds(b)
  {
    assert forall i :: 0 <= i < |a| ==> a[i] in a && b[i] in b;
  }

  /** Undoing one changes neither. */
  lemma UndoKeepsSelection(a: Action, m: Memo, s: BuilderState)
    ensures var out := Undone(a, m, s);
            out.selectedNodeId == s.selectedNodeId && out.validationErrors == s.validationErrors
  {
  }

  /** So the selection stays a node of the canvas, but for one case: undoing the addition
      of the selected node leaves its ID selected. */
  lemma UndoSelectsIff(a: Action, m: Memo, s: BuilderState)
    requires Selects(s)
    ensures Selects(Undone(a, m, s)) <==> !(a.AddNode? && s.selectedNodeId == Some(a.node.id))
  {
    var out := Undone(a, m, s);
    match a
    case AddNode(node) => IdsWithout(s.nodes, {node.id});
    case DeleteNode(_) =>
      if m.deletedNode.Some? {
        SpliceMembers(s.nodes, m.nodeIndex, m.deletedNode.value);
        assert NodeIds(s.nodes) <= NodeIds(out.nodes);
      }
    case MoveNode(id, _, p) => SameIdsInPlace(s.nodes, out.nodes);
    case UpdateProperty(id, _, ps) => SameIdsInPlace(s.nodes, out.nodes);
    case DeleteSelection(_) => IdsAppend(s.nodes, m.deletedNodes);
    case _ =>
  }
}
