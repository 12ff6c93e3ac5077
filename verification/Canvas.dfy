/** The builder's canvas: nodes, edges and what is selected. */
module Canvas {
  import opened Wrappers
  import opened Graphs
  import opened Workflows

  datatype CanvasNode = CanvasNode(id: string, pluginId: string, position: Position, data: map<string, Value>)

  /** `caption` is the field `label`. */
  datatype CanvasEdge = CanvasEdge(
    id: string, source: string, target: string,
    sourceHandle: Option<string>, targetHandle: Option<string>, caption: Option<string>)

  datatype ValidationError = ValidationError(nodeId: string, message: string)

  datatype BuilderState = BuilderState(
    nodes: seq<CanvasNode>, edges: seq<CanvasEdge>,
    selectedNodeId: Option<string>, validationErrors: seq<ValidationError>)

  function NodeIds(nodes: seq<CanvasNode>): set<string> {
    set n | n in nodes :: n.id
  }

  ghost predicate UniqueNodeIds(nodes: seq<CanvasNode>) {
    forall i, k :: 0 <= i < k < |nodes| ==> nodes[i].id != nodes[k].id
  }

  /** Every edge joins two nodes of the canvas. */
  ghost predicate ValidEdges(s: BuilderState) {
    forall e :: e in s.edges ==> e.source in NodeIds(s.nodes) && e.target in NodeIds(s.nodes)
  }

  /** The targets of the edges that leave `a`, in order. */
  function TargetsFrom(edges: seq<CanvasEdge>, a: string): (ts: seq<string>)
    ensures forall b :: b in ts <==> exists e :: e in edges && e.source == a && e.target == b
  {
    if edges == [] then []
    else
      var last := edges[|edges| - 1];
      assert edges == edges[..|edges| - 1] + [last];
      TargetsFrom(edges[..|edges| - 1], a) + if last.source == a then [last.target] else []
  }

  function CanvasGraph(s: BuilderState): Graph {
    map a | a in NodeIds(s.nodes) :: TargetsFrom(s.edges, a)
  }
}
