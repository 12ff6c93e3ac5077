/** What executing and undoing one command does to the order of the lists. */
module CommandOrder {
  import opened Workflows
  import opened Canvas
  import opened Commands
  import opened CommandLaws
  import opened History

  // ----- executing -----

  /** What stays keeps its order, and what is new stands behind it. */
  ghost predicate NodesInOrder(before: seq<CanvasNode>, after: seq<CanvasNode>) {
    forall i, k :: 0 <= i < k < |after| && NodeIndex(before, after[k].id) >= 0 ==>
                     0 <= NodeIndex(before, after[i].id) < NodeIndex(before, after[k].id)
  }

  ghost predicate EdgesInOrder(before: seq<CanvasEdge>, after: seq<CanvasEdge>) {
    forall i, k :: 0 <= i < k < |after| && EdgeIndex(before, after[k].id) >= 0 ==>
                     0 <= EdgeIndex(before, after[i].id) < EdgeIndex(before, after[k].id)
  }

  lemma NodeIndexIs(nodes: seq<CanvasNode>, i: nat)
    requires UniqueNodeIds(nodes) && i < |nodes|
    ensures NodeIndex(nodes, nodes[i].id) == i
  {
  }

  lemma EdgeIndexIs(edges: seq<CanvasEdge>, i: nat)
    requires UniqueEdgeIds(edges) && i < |edges|
    ensures EdgeIndex(edges, edges[i].id) == i
  {
  }

  /** The last node may follow whatever is kept of the others. */
  lemma OneMoreNode(nodes: seq<CanvasNode>, kept: seq<CanvasNode>)
    requires UniqueNodeIds(nodes) && nodes != []
    requires var front := nodes[..|nodes| - 1]; NodesInOrder(front, kept) && forall n :: n in kept ==> n in front
    ensures NodesInOrder(nodes, kept) && NodesInOrder(nodes, kept + [nodes[|nodes| - 1]])
  {
    hide NodeIndex;
    var front, more := nodes[..|nodes| - 1], kept + [nodes[|nodes| - 1]];
    NodeIndexIs(nodes, |nodes| - 1);
    forall i | 0 <= i < |kept|
      ensures 0 <= NodeIndex(nodes, kept[i].id) < |nodes| - 1
      ensures NodeIndex(nodes, kept[i].id) == NodeIndex(front, kept[i].id)
    {
      assert kept[i] in front;
      var k :| 0 <= k < |front| && front[k] == kept[i];
      NodeIndexIs(nodes, k);
      NodeIndexIs(front, k);
    }
  }

  lemma OneMoreEdge(edges: seq<CanvasEdge>, kept: seq<CanvasEdge>)
    requires UniqueEdgeIds(edges) && edges != []
    requires var front := edges[..|edges| - 1]; EdgesInOrder(front, kept) && forall e :: e in kept ==> e in front
    ensures EdgesInOrder(edges, kept) && EdgesInOrder(edges, kept + [edges[|edges| - 1]])
  {
    hide EdgeIndex;
    var front, more := edges[..|edges| - 1], kept + [edges[|edges| - 1]];
    EdgeIndexIs(edges, |edges| - 1);
    forall i | 0 <= i < |kept|
      ensures 0 <= EdgeIndex(edges, kept[i].id) < |edges| - 1
      ensures EdgeIndex(edges, kept[i].id) == EdgeIndex(front, kept[i].id)
    {
      assert kept[i] in front;
      var k :| 0 <= k < |front| && front[k] == kept[i];
      EdgeIndexIs(edges, k);
      EdgeIndexIs(front, k);
    }
  }

  lemma {:induction false} NodesWithin(nodes: seq<CanvasNode>, ids: set<string>)
    ensures forall n :: n in NodesWithout(nodes, ids) || n in NodesAmong(nodes, ids) ==> n in nodes
  {
    if nodes != [] {
      var front, last := nodes[..|nodes| - 1], nodes[|nodes| - 1];
      NodesWithin(front, ids);
      assert nodes == front + [last];
    }
  }

  lemma LastNodeKept(nodes: seq<CanvasNode>, ids: set<string>)
    requires nodes != []
    ensures var front, last := nodes[..|nodes| - 1], nodes[|nodes| - 1];
            && NodesWithout(nodes, ids) == NodesWithout(front, ids) + (if last.id in ids then [] else [last])
            && NodesAmong(nodes, ids) == NodesAmong(front, ids) + if last.id in ids then [last] else []
  {
  }

  lemma {:induction false} NodesWithoutInOrder(nodes: seq<CanvasNode>, ids: set<string>)
    requires UniqueNodeIds(nodes)
    ensures NodesInOrder(nodes, NodesWithout(nodes, ids)) && NodesInOrder(nodes, NodesAmong(nodes, ids))
  {
    if nodes == [] {
      assert NodesWithout(nodes, ids) == [] && NodesAmong(nodes, ids) == [];
    } else {
      hide NodesInOrder, NodesWithout, NodesAmong;
      var front := nodes[..|nodes| - 1];
      LastNodeKept(nodes, ids);
      NodesWithoutInOrder(front, ids);
      NodesWithin(front, ids);
      OneMoreNode(nodes, NodesWithout(front, ids));
      OneMoreNode(nodes, NodesAmong(front, ids));
    }
  }

  lemma {:induction false} EdgesWithin(edges: seq<CanvasEdge>, ids: set<string>)
    ensures forall e :: e in EdgesWithout(edges, ids) || e in EdgesTouching(edges, ids) ==> e in edges
  {
    hide Touches;
    if edges != [] {
      var front, last := edges[..|edges| - 1], edges[|edges| - 1];
      EdgesWithin(front, ids);
      assert edges == front + [last];
    }
  }

  lemma {:induction false} EdgesWithoutInOrder(edges: seq<CanvasEdge>, ids: set<string>)
    requires UniqueEdgeIds(edges)
    ensures EdgesInOrder(edges, EdgesWithout(edges, ids)) && EdgesInOrder(edges, EdgesTouching(edges, ids))
  {
    hide Touches;
    if edges != [] {
      hide EdgesInOrder;
      var front := edges[..|edges| - 1];
      EdgesWithoutInOrder(front, ids);
      EdgesWithin(front, ids);
      OneMoreEdge(edges, EdgesWithout(front, ids));
      OneMoreEdge(edges, EdgesTouching(front, ids));
    }
  }

  lemma {:induction false} ExceptWithin(edges: seq<CanvasEdge>, id: string)
    ensures forall e :: e in EdgesExcept(edges, id) ==> e in edges
  {
    if edges != [] {
      var front, last := edges[..|edges| - 1], edges[|edges| - 1];
      ExceptWithin(front, id);
      assert edges == front + [last];
    }
  }

  lemma {:induction false} EdgesExceptInOrder(edges: seq<CanvasEdge>, id: string)
    requires UniqueEdgeIds(edges)
    ensures EdgesInOrder(edges, EdgesExcept(edges, id))
  {
    if edges != [] {
      hide EdgesInOrder;
      var front := edges[..|edges| - 1];
      EdgesExceptInOrder(front, id);
      ExceptWithin(front, id);
      OneMoreEdge(edges, EdgesExcept(front, id));
    }
  }

  lemma SameNodesInOrder(before: seq<CanvasNode>, after: seq<CanvasNode>)
    requires UniqueNodeIds(before) && |before| <= |after|
    requires forall i :: 0 <= i < |before| ==> after[i].id == before[i].id
    requires forall i :: |before| <= i < |after| ==> NodeIndex(before, after[i].id) < 0
    ensures NodesInOrder(before, after)
  {
    hide NodeIndex;
    forall i | 0 <= i < |before|
      ensures NodeIndex(before, after[i].id) == i
    {
      NodeIndexIs(before, i);
    }
  }

  lemma SameEdgesInOrder(before: seq<CanvasEdge>, after: seq<CanvasEdge>)
    requires UniqueEdgeIds(before) && before <= after
    requires forall i :: |before| <= i < |after| ==> EdgeIndex(before, after[i].id) < 0
    ensures EdgesInOrder(before, after)
  {
    hide EdgeIndex;
    forall i | 0 <= i < |before|
      ensures EdgeIndex(before, after[i].id) == i
    {
      EdgeIndexIs(before, i);
    }
  }

  lemma NewNode(s: BuilderState, n: CanvasNode)
    requires UniqueCanvas(s) && n.id !in Shown(s).nodes
    ensures NodeIndex(s.nodes, n.id) < 0
  {
  }

  lemma NewEdge(s: BuilderState, e: CanvasEdge)
    requires UniqueCanvas(s) && e.id !in Shown(s).edges
    ensures EdgeIndex(s.edges, e.id) < 0
  {
  }

  /** Executing a fitting command never reorders the lists, and adds at their ends. */
  lemma ExecuteKeepsOrder(a: Action, m: Memo, s: BuilderState)
    requires UniqueCanvas(s) && Fits(a, Shown(s))
    ensures var t := Executed(a, m, s).0; NodesInOrder(s.nodes, t.nodes) && EdgesInOrder(s.edges, t.edges)
  {
    hide NodesInOrder, EdgesInOrder, NodeIndex, EdgeIndex, Shown;
    var t := Executed(a, m, s).0;
    SameEdgesInOrder(s.edges, s.edges);
    SameNodesInOrder(s.nodes, s.nodes);
    match a
    case AddNode(n) =>
      NewNode(s, n);
      SameNodesInOrder(s.nodes, t.nodes);
    case DeleteNode(id) =>
      NodesWithoutInOrder(s.nodes, {id});
      EdgesWithoutInOrder(s.edges, {id});
    case MoveNode(_, _, _) => SameNodesInOrder(s.nodes, t.nodes);
    case UpdateProperty(_, _, _) => SameNodesInOrder(s.nodes, t.nodes);
    case ConnectEdge(e) =>
      NewEdge(s, e);
      SameEdgesInOrder(s.edges, t.edges);
    case DisconnectEdge(id) => EdgesExceptInOrder(s.edges, id);
    case DeleteSelection(ids) =>
      NodesWithoutInOrder(s.nodes, ids);
      EdgesWithoutInOrder(s.edges, ids);
  }

  // ----- undoing right afterwards -----

  lemma {:induction false} WithoutNone(nodes: seq<CanvasNode>, id: string)
    requires forall n :: n in nodes ==> n.id != id
    ensures NodesWithout(nodes, {id}) == nodes
  {
    if nodes != [] {
      WithoutNone(nodes[..|nodes| - 1], id);
    }
  }

  lemma {:induction false} WithoutOne(nodes: seq<CanvasNode>, i: nat)
    requires UniqueNodeIds(nodes) && i < |nodes|
    ensures NodesWithout(nodes, {nodes[i].id}) == nodes[..i] + nodes[i + 1..]
  {
    var front := nodes[..|nodes| - 1];
    if i == |nodes| - 1 {
      WithoutNone(front, nodes[i].id);
    } else {
      WithoutOne(front, i);
      assert front[..i] == nodes[..i] && nodes[i + 1..] == front[i + 1..] + [nodes[|nodes| - 1]];
    }
  }

  lemma {:induction false} ExceptNone(edges: seq<CanvasEdge>, id: string)
    requires forall e :: e in edges ==> e.id != id
    ensures EdgesExcept(edges, id) == edges
  {
    if edges != [] {
      ExceptNone(edges[..|edges| - 1], id);
    }
  }

  lemma {:induction false} ExceptOne(edges: seq<CanvasEdge>, i: nat)
    requires UniqueEdgeIds(edges) && i < |edges|
    ensures EdgesExcept(edges, edges[i].id) == edges[..i] + edges[i + 1..]
  {
    var front := edges[..|edges| - 1];
    if i == |edges| - 1 {
      ExceptNone(front, edges[i].id);
    } else {
      ExceptOne(front, i);
      assert front[..i] == edges[..i] && edges[i + 1..] == front[i + 1..] + [edges[|edges| - 1]];
    }
  }

  lemma SpliceBack<T>(list: seq<T>, i: nat)
    requires i < |list|
    ensures Splice(list[..i] + list[i + 1..], i, list[i]) == list
  {
    var rest := list[..i] + list[i + 1..];
    assert rest[..i] == list[..i] && rest[i..] == list[i + 1..];
  }

  lemma UpdatedBack(s: BuilderState, id: string, ps: Properties, oldPs: Properties)
    requires UniqueCanvas(s) && Fits(UpdateProperty(id, ps, oldPs), Shown(s))
    ensures Updated(Updated(s.nodes, id, ps), id, oldPs) == s.nodes
  {
    hide Merge, Truthful;
    ShowsShown(s);
    forall k | 0 <= k < |s.nodes| && s.nodes[k].id == id
      ensures Merge(Merge(s.nodes[k].data, ps), oldPs) == s.nodes[k].data
    {
      assert s.nodes[k] in s.nodes;
      MergeBack(s.nodes[k].data, ps, oldPs);
    }
  }

  lemma MovedBack(s: BuilderState, id: string, p: Position, q: Position)
    requires UniqueCanvas(s) && Fits(MoveNode(id, p, q), Shown(s))
    ensures Moved(Moved(s.nodes, id, p), id, q) == s.nodes
  {
    hide Shown, Fits, UniqueCanvas;
    OldPosition(s, id, p, q);
  }

  lemma OldPosition(s: BuilderState, id: string, p: Position, q: Position)
    requires UniqueCanvas(s) && Fits(MoveNode(id, p, q), Shown(s))
    ensures forall k :: 0 <= k < |s.nodes| && s.nodes[k].id == id ==> s.nodes[k].position == q
  {
    hide Shown;
    ShowsShown(s);
    forall k | 0 <= k < |s.nodes| && s.nodes[k].id == id
      ensures s.nodes[k].position == q
    {
      assert s.nodes[k] in s.nodes;
    }
  }

  /** Undoing a fitting command right after executing it restores the lists themselves,
      but for two kinds: deleting a node puts its edges behind the others, and deleting a
      selection the nodes as well. */
  lemma UndoRestoresLists(a: Action, s: BuilderState)
    requires UniqueCanvas(s) && Fits(a, Shown(s))
    ensures var (t, m) := Executed(a, BLANK, s);
            var u := Undone(a, m, t);
            match a
            case DeleteNode(id) =>
              && u.nodes == s.nodes
              && u.edges == if id in NodeIds(s.nodes)
                            then EdgesWithout(s.edges, {id}) + EdgesTouching(s.edges, {id}) else s.edges
            case DeleteSelection(ids) =>
              && u.nodes == NodesWithout(s.nodes, ids) + NodesAmong(s.nodes, ids)
              && u.edges == EdgesWithout(s.edges, ids) + EdgesTouching(s.edges, ids)
            case _ => u.nodes == s.nodes && u.edges == s.edges
  {
    hide Shown, Splice;
    match a
    case AddNode(n) => AddedBack(s, n);
    case DeleteNode(id) =>
      var i := NodeIndex(s.nodes, id);
      if i >= 0 {
        WithoutOne(s.nodes, i);
        SpliceBack(s.nodes, i);
        assert s.nodes[i] in s.nodes;
      }
    case MoveNode(id, p, q) => MovedBack(s, id, p, q);
    case UpdateProperty(id, ps, oldPs) => UpdatedBack(s, id, ps, oldPs);
    case ConnectEdge(e) => ConnectedBack(s, e);
    case DisconnectEdge(id) =>
      var i := EdgeIndex(s.edges, id);
      if i >= 0 {
        ExceptOne(s.edges, i);
        SpliceBack(s.edges, i);
      }
    case _ =>
  }

  lemma AddedBack(s: BuilderState, n: CanvasNode)
    requires UniqueCanvas(s) && n.id !in Shown(s).nodes
    ensures NodesWithout(s.nodes + [n], {n.id}) == s.nodes
  {
    assert (s.nodes + [n])[..|s.nodes|] == s.nodes;
    NewNode(s, n);
    WithoutNone(s.nodes, n.id);
  }

  lemma ConnectedBack(s: BuilderState, e: CanvasEdge)
    requires UniqueCanvas(s) && e.id !in Shown(s).edges
    ensures EdgesExcept(s.edges + [e], e.id) == s.edges
  {
    assert (s.edges + [e])[..|s.edges|] == s.edges;
    NewEdge(s, e);
    ExceptNone(s.edges, e.id);
  }
}
