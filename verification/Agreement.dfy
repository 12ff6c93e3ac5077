/** The compiler's depth-first search and the layout's layers agree on which
    definitions have a cycle. */
module Agreement {
  import opened Graphs
  import opened Workflows
  import opened Canvas
  import opened Adapter
  import Compilation
  import CycleCheck
  import Layering
  import Layout

  ghost predicate RouteOf(tasks: seq<TaskDefinition>, a: string, b: string) {
    exists t :: t in tasks && t.id == a && b in Targets(t)
  }

  ghost predicate EdgeOf(edges: seq<CanvasEdge>, a: string, b: string) {
    exists e :: e in edges && e.source == a && e.target == b
  }

  lemma TaskEdgeOf(t: TaskDefinition, n: nat, a: string, b: string)
    ensures EdgeOf(TaskEdges(t, n), a, b) <==> t.id == a && b in Targets(t)
  {
    hide Digits;
    var es := TaskEdges(t, n);
    assert |es| == |Targets(t)| && forall i :: 0 <= i < |es| ==> es[i].source == t.id && es[i].target == Targets(t)[i];
    if t.id == a && b in Targets(t) {
      var i :| 0 <= i < |es| && Targets(t)[i] == b;
      assert es[i] in es;
    }
  }

  /** The imported edges are the routes. */
  lemma {:induction false} EdgeOfIffRouteOf(tasks: seq<TaskDefinition>, a: string, b: string)
    ensures EdgeOf(ImportedEdges(tasks), a, b) <==> RouteOf(tasks, a, b)
  {
    if tasks != [] {
      var front, last := tasks[..|tasks| - 1], tasks[|tasks| - 1];
      var before := ImportedEdges(front);
      EdgeOfIffRouteOf(front, a, b);
      TaskEdgeOf(last, |before|, a, b);
      JoinEdges(before, TaskEdges(last, |before|), a, b);
      JoinTasks(tasks, a, b);
    }
  }

  lemma JoinEdges(x: seq<CanvasEdge>, y: seq<CanvasEdge>, a: string, b: string)
    ensures EdgeOf(x + y, a, b) <==> EdgeOf(x, a, b) || EdgeOf(y, a, b)
  {
  }

  lemma JoinTasks(tasks: seq<TaskDefinition>, a: string, b: string)
    requires tasks != []
    ensures RouteOf(tasks, a, b) <==>
            || RouteOf(tasks[..|tasks| - 1], a, b)
            || (tasks[|tasks| - 1].id == a && b in Targets(tasks[|tasks| - 1]))
  {
    hide Targets;
    assert tasks == tasks[..|tasks| - 1] + [tasks[|tasks| - 1]];
  }

  lemma AdjacencyIsRouteOf(tasks: seq<TaskDefinition>, a: string, b: string)
    requires UniqueIds(tasks)
    ensures Edge(Adjacency(tasks), a, b) <==> RouteOf(tasks, a, b)
  {
    hide Targets, Adjacency;
    forall i | 0 <= i < |tasks|
      ensures Adjacency(tasks)[tasks[i].id] == Targets(tasks[i])
    {
      AdjacencyOfTask(tasks, i);
    }
    if Edge(Adjacency(tasks), a, b) {
      var i :| 0 <= i < |tasks| && tasks[i].id == a;
    }
  }

  /** Importing keeps the graph: same nodes, same edges. */
  lemma ImportKeepsGraph(w: WorkflowDefinition, a: string, b: string)
    requires UniqueIds(w.tasks)
    ensures Edge(Adjacency(w.tasks), a, b) <==> Edge(CanvasGraph(Imported(w)), a, b)
  {
    hide Targets, Adjacency, ImportedEdges, NodeIds, TaskIds;
    AdjacencyIsRouteOf(w.tasks, a, b);
    EdgeOfIffRouteOf(w.tasks, a, b);
    ImportedIds(w);
    if t :| t in w.tasks && t.id == a && b in Targets(t) {
      IdListed(w.tasks, t);
    }
  }

  lemma IdListed(tasks: seq<TaskDefinition>, t: TaskDefinition)
    requires t in tasks
    ensures t.id in TaskIds(tasks)
  {
  }

  /** The imported canvas is valid exactly if all route targets exist. */
  lemma ValidIffTargetsExist(w: WorkflowDefinition)
    ensures ValidEdges(Imported(w)) <==> Compilation.TargetsExist(w.tasks)
  {
    hide Targets, ImportedEdges, NodeIds, TaskIds;
    ImportedIds(w);
    var s := Imported(w);
    if Compilation.TargetsExist(w.tasks) {
      forall e | e in s.edges
        ensures e.source in NodeIds(s.nodes) && e.target in NodeIds(s.nodes)
      {
        EdgeOfIffRouteOf(w.tasks, e.source, e.target);
        var t :| t in w.tasks && t.id == e.source && e.target in Targets(t);
        IdListed(w.tasks, t);
      }
    }
    if ValidEdges(s) {
      forall t, b | t in w.tasks && b in Targets(t)
        ensures b in TaskIds(w.tasks)
      {
        EdgeOfIffRouteOf(w.tasks, t.id, b);
        assert RouteOf(w.tasks, t.id, b);
        var e :| e in s.edges && e.source == t.id && e.target == b;
      }
    }
  }

  lemma SameCycles(w: WorkflowDefinition)
    requires UniqueIds(w.tasks)
    ensures Cyclic(Adjacency(w.tasks)) <==> Cyclic(CanvasGraph(Imported(w)))
  {
    hide Adjacency, CanvasGraph, Cyclic, Imported;
    forall a, b
      ensures Edge(Adjacency(w.tasks), a, b) <==> Edge(CanvasGraph(Imported(w)), a, b)
    {
      ImportKeepsGraph(w, a, b);
    }
    SameEdgesSameCycles(Adjacency(w.tasks), CanvasGraph(Imported(w)));
  }

  /** The search reports no cycle exactly if the layers leave no node over. */
  method BothChecks(w: WorkflowDefinition) returns (cycles: seq<CycleCheck.BackRoute>, unplaced: seq<string>)
    requires UniqueIds(w.tasks) && Compilation.TargetsExist(w.tasks)
    ensures cycles == [] <==> unplaced == []
  {
    hide Adjacency, CanvasGraph, Cyclic, Imported, ValidEdges, UniqueIds, UniqueNodeIds, Compilation.TargetsExist;
    cycles := CycleCheck.DetectCycles(w.tasks);
    var s := Deserialize(w);
    NodesUnique(w);
    Layering.EndsIfDistinct(s);
    var rows;
    rows, unplaced := Layout.Rows(s);
    ValidIffTargetsExist(w);
    SameCycles(w);
  }

  lemma NodesUnique(w: WorkflowDefinition)
    requires UniqueIds(w.tasks)
    ensures UniqueNodeIds(Imported(w).nodes)
  {
  }
}
