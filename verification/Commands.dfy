/** The builder's commands: objects that change the canvas and remember what they
    need to change it back. */
module Commands {
  import opened Wrappers
  import opened Workflows
  import opened Canvas

  /** A property that is set to undefined counts as absent. */
  type Properties = map<string, Option<Value>>

  datatype Action =
    | AddNode(node: CanvasNode)
    | DeleteNode(nodeId: string)
    | MoveNode(nodeId: string, newPosition: Position, oldPosition: Position)
    | UpdateProperty(nodeId: string, properties: Properties, oldProperties: Properties)
    | ConnectEdge(edge: CanvasEdge)
    | DisconnectEdge(edgeId: string)
    | DeleteSelection(selectedNodeIds: set<string>)

  /** The private fields of a command object. */
  datatype Memo = Memo(
    nodeIndex: int, deletedNode: Option<CanvasNode>, deletedNodes: seq<CanvasNode>,
    deletedEdges: seq<CanvasEdge>, edgeIndex: int, deletedEdge: Option<CanvasEdge>)

  const BLANK: Memo := Memo(-1, None, [], [], -1, None)

  // ----- filter, map, findIndex and splice -----

  function NodesWithout(nodes: seq<CanvasNode>, ids: set<string>): seq<CanvasNode> {
    if nodes == [] then []
    else
      NodesWithout(nodes[..|nodes| - 1], ids) +
      if nodes[|nodes| - 1].id in ids then [] else [nodes[|nodes| - 1]]
  }

  function NodesAmong(nodes: seq<CanvasNode>, ids: set<string>): seq<CanvasNode> {
    if nodes == [] then []
    else
      NodesAmong(nodes[..|nodes| - 1], ids) +
      if nodes[|nodes| - 1].id in ids then [nodes[|nodes| - 1]] else []
  }

  predicate Touches(e: CanvasEdge, ids: set<string>) {
    e.source in ids || e.target in ids
  }

  function EdgesWithout(edges: seq<CanvasEdge>, ids: set<string>): seq<CanvasEdge> {
    if edges == [] then []
    else
      EdgesWithout(edges[..|edges| - 1], ids) +
      if Touches(edges[|edges| - 1], ids) then [] else [edges[|edges| - 1]]
  }

  function EdgesTouching(edges: seq<CanvasEdge>, ids: set<string>): seq<CanvasEdge> {
    if edges == [] then []
    else
      EdgesTouching(edges[..|edges| - 1], ids) +
      if Touches(edges[|edges| - 1], ids) then [edges[|edges| - 1]] else []
  }

  function EdgesExcept(edges: seq<CanvasEdge>, edgeId: string): seq<CanvasEdge> {
    if edges == [] then []
    else
      EdgesExcept(edges[..|edges| - 1], edgeId) +
      if edges[|edges| - 1].id == edgeId then [] else [edges[|edges| - 1]]
  }

  function Moved(nodes: seq<CanvasNode>, id: string, p: Position): (r: seq<CanvasNode>)
    ensures |r| == |nodes|
    ensures forall i :: 0 <= i < |nodes| ==>
                          r[i] == if nodes[i].id == id then nodes[i].(position := p) else nodes[i]
  {
    if nodes == [] then []
    else
      var last := nodes[|nodes| - 1];
      Moved(nodes[..|nodes| - 1], id, p) + [if last.id == id then last.(position := p) else last]
  }

  /** { ...data, ...properties } */
  function Merge(data: map<string, Value>, ps: Properties): map<string, Value> {
    map k | k in data.Keys + ps.Keys && (k in ps ==> ps[k].Some?) :: if k in ps then ps[k].value else data[k]
  }

  function Updated(nodes: seq<CanvasNode>, id: string, ps: Properties): (r: seq<CanvasNode>)
    ensures |r| == |nodes|
    ensures forall i :: 0 <= i < |nodes| ==>
                          r[i] == if nodes[i].id == id then nodes[i].(data := Merge(nodes[i].data, ps)) else nodes[i]
  {
    if nodes == [] then []
    else
      var last := nodes[|nodes| - 1];
      Updated(nodes[..|nodes| - 1], id, ps) + [if last.id == id then last.(data := Merge(last.data, ps)) else last]
  }

  function NodeIndex(nodes: seq<CanvasNode>, id: string): (i: int)
    ensures -1 <= i < |nodes|
    ensures i >= 0 ==> nodes[i].id == id && forall k :: 0 <= k < i ==> nodes[k].id != id
    ensures i < 0 ==> forall k :: 0 <= k < |nodes| ==> nodes[k].id != id
  {
    if nodes == [] then -1
    else
      var i := NodeIndex(nodes[..|nodes| - 1], id);
      if i >= 0 then i else if nodes[|nodes| - 1].id == id then |nodes| - 1 else -1
  }

  function EdgeIndex(edges: seq<CanvasEdge>, id: string): (i: int)
    ensures -1 <= i < |edges|
    ensures i >= 0 ==> edges[i].id == id && forall k :: 0 <= k < i ==> edges[k].id != id
    ensures i < 0 ==> forall k :: 0 <= k < |edges| ==> edges[k].id != id
  {
    if edges == [] then -1
    else
      var i := EdgeIndex(edges[..|edges| - 1], id);
      if i >= 0 then i else if edges[|edges| - 1].id == id then |edges| - 1 else -1
  }

  /** list.splice(index, 0, x) */
  function Splice<T>(list: seq<T>, index: int, x: T): seq<T> {
    var at := if index >= |list| then |list| else if index >= 0 then index
              else if |list| + index >= 0 then |list| + index else 0;
    list[..at] + [x] + list[at..]
  }

  // ----- execute and undo -----

  function Executed(a: Action, m: Memo, s: BuilderState): (BuilderState, Memo) {
    match a
    case AddNode(node) => (s.(nodes := s.nodes + [node]), m)
    case DeleteNode(id) =>
      var i := NodeIndex(s.nodes, id);
      if i == -1 then (s, m.(nodeIndex := -1))
      else
        (s.(nodes := NodesWithout(s.nodes, {id}),
            edges := EdgesWithout(s.edges, {id}),
            selectedNodeId := if s.selectedNodeId == Some(id) then None else s.selectedNodeId),
         m.(nodeIndex := i, deletedNode := Some(s.nodes[i]), deletedEdges := EdgesTouching(s.edges, {id})))
    case MoveNode(id, p, _) => (s.(nodes := Moved(s.nodes, id, p)), m)
    case UpdateProperty(id, ps, _) => (s.(nodes := Updated(s.nodes, id, ps)), m)
    case ConnectEdge(edge) => (s.(edges := s.edges + [edge]), m)
    case DisconnectEdge(id) =>
      var i := EdgeIndex(s.edges, id);
      if i == -1 then (s, m.(edgeIndex := -1))
      else (s.(edges := EdgesExcept(s.edges, id)), m.(edgeIndex := i, deletedEdge := Some(s.edges[i])))
    case DeleteSelection(ids) =>
      (s.(nodes := NodesWithout(s.nodes, ids),
          edges := EdgesWithout(s.edges, ids),
          selectedNodeId :=
            if s.selectedNodeId.Some? && s.selectedNodeId.value in ids then None else s.selectedNodeId),
       m.(deletedNodes := NodesAmong(s.nodes, ids), deletedEdges := EdgesTouching(s.edges, ids)))
  }

  function Undone(a: Action, m: Memo, s: BuilderState): BuilderState {
    match a
    case AddNode(node) => s.(nodes := NodesWithout(s.nodes, {node.id}))
    case DeleteNode(_) =>
      if m.deletedNode.None? then s
      else s.(nodes := Splice(s.nodes, m.nodeIndex, m.deletedNode.value), edges := s.edges + m.deletedEdges)
    case MoveNode(id, _, p) => s.(nodes := Moved(s.nodes, id, p))
    case UpdateProperty(id, _, ps) => s.(nodes := Updated(s.nodes, id, ps))
    case ConnectEdge(edge) => s.(edges := EdgesExcept(s.edges, edge.id))
    case DisconnectEdge(_) =>
      if m.deletedEdge.None? then s
      else s.(edges := Splice(s.edges, m.edgeIndex, m.deletedEdge.value))
    case DeleteSelection(_) => s.(nodes := s.nodes + m.deletedNodes, edges := s.edges + m.deletedEdges)
  }

  /** A command object on the undo or redo stack. */
  class Command {
    const action: Action
    var nodeIndex: int
    var deletedNode: Option<CanvasNode>
    var deletedNodes: seq<CanvasNode>
    var deletedEdges: seq<CanvasEdge>
    var edgeIndex: int
    var deletedEdge: Option<CanvasEdge>

    ghost function Memory(): Memo
      reads this
    {
      Memo(nodeIndex, deletedNode, deletedNodes, deletedEdges, edgeIndex, deletedEdge)
    }

    constructor (action: Action)
      ensures this.action == action && Memory() == BLANK
    {
      this.action := action;
      nodeIndex, deletedNode, deletedNodes, deletedEdges := -1, None, [], [];
      edgeIndex, deletedEdge := -1, None;
    }

    method Execute(s: BuilderState) returns (out: BuilderState)
      modifies this
      ensures (out, Memory()) == Executed(action, old(Memory()), s)
    {
      match action
      case AddNode(node) => out := s.(nodes := s.nodes + [node]);
      case DeleteNode(id) =>
        nodeIndex := NodeIndex(s.nodes, id);
        if nodeIndex == -1 {
          return s;
        }
        deletedNode := Some(s.nodes[nodeIndex]);
        deletedEdges := EdgesTouching(s.edges, {id});
        var selected := if s.selectedNodeId == Some(id) then None else s.selectedNodeId;
        out := s.(
          nodes := NodesWithout(s.nodes, {id}), edges := EdgesWithout(s.edges, {id}), selectedNodeId := selected);
      case MoveNode(id, p, _) => out := s.(nodes := Moved(s.nodes, id, p));
      case UpdateProperty(id, ps, _) => out := s.(nodes := Updated(s.nodes, id, ps));
      case ConnectEdge(edge) => out := s.(edges := s.edges + [edge]);
      case DisconnectEdge(id) =>
        edgeIndex := EdgeIndex(s.edges, id);
        if edgeIndex == -1 {
          return s;
        }
        deletedEdge := Some(s.edges[edgeIndex]);
        out := s.(edges := EdgesExcept(s.edges, id));
      case DeleteSelection(ids) =>
        deletedNodes := NodesAmong(s.nodes, ids);
        deletedEdges := EdgesTouching(s.edges, ids);
        var gone := s.selectedNodeId.Some? && s.selectedNodeId.value in ids;
        out := s.(
          nodes := NodesWithout(s.nodes, ids), edges := EdgesWithout(s.edges, ids),
          selectedNodeId := if gone then None else s.selectedNodeId);
    }

    method Undo(s: BuilderState) returns (out: BuilderState)
      ensures out == Undone(action, Memory(), s)
    {
      match action
      case AddNode(node) => out := s.(nodes := NodesWithout(s.nodes, {node.id}));
      case DeleteNode(_) =>
        if deletedNode.None? {
          return s;
        }
        var newNodes := Splice(s.nodes, nodeIndex, deletedNode.value);
        out := s.(nodes := newNodes, edges := s.edges + deletedEdges);
      case MoveNode(id, _, p) => out := s.(nodes := Moved(s.nodes, id, p));
      case UpdateProperty(id, _, ps) => out := s.(nodes := Updated(s.nodes, id, ps));
      case ConnectEdge(edge) => out := s.(edges := EdgesExcept(s.edges, edge.id));
      case DisconnectEdge(_) =>
        if deletedEdge.None? {
          return s;
        }
        var newEdges := Splice(s.edges, edgeIndex, deletedEdge.value);
        out := s.(edges := newEdges);
      case DeleteSelection(_) => out := s.(nodes := s.nodes + deletedNodes, edges := s.edges + deletedEdges);
    }
  }
}
