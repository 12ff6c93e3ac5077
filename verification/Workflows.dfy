/** Workflow definitions: what the builder saves and the compiler reads. */
module Workflows {
  import opened Wrappers
  import opened Graphs

  /** A configuration value.  Only its truthiness is ever looked at. */
  datatype Value = Text(text: string) | Other(content: int, truthy: bool)

  predicate Truthy(v: Value) {
    if v.Text? then v.text != "" else v.truthy
  }

  datatype Position = Position(x: int, y: int)

  /** `conditional` lists the outcome/target pairs in the order of `Object.entries`. */
  datatype Routes = Routes(fallback: Option<string>, conditional: Option<seq<Choice>>)

  datatype Choice = Choice(outcome: string, target: string)

  datatype TaskDefinition = TaskDefinition(
    id: string, pluginId: string, name: Value, config: map<string, Value>, routes: Routes)

  /** `positions` is `metadata.layout.nodePositions`. */
  datatype WorkflowDefinition = WorkflowDefinition(
    id: string, name: string, version: string, entryTaskId: string,
    tasks: seq<TaskDefinition>, positions: Option<map<string, Position>>)

  /** The default route, if there is one and it is not the empty string. */
  function DefaultTarget(r: Routes): seq<string> {
    if r.fallback.Some? && r.fallback.value != "" then [r.fallback.value] else []
  }

  function Choices(r: Routes): seq<Choice> {
    if r.conditional.Some? then r.conditional.value else []
  }

  function ChoiceTargets(cs: seq<Choice>): (ts: seq<string>)
    ensures |ts| == |cs| && forall i :: 0 <= i < |cs| ==> ts[i] == cs[i].target
  {
    if cs == [] then [] else ChoiceTargets(cs[..|cs| - 1]) + [cs[|cs| - 1].target]
  }

  function Targets(t: TaskDefinition): seq<string> {
    DefaultTarget(t.routes) + ChoiceTargets(Choices(t.routes))
  }

  /** A JavaScript object has each key once. */
  ghost predicate DistinctOutcomes(t: TaskDefinition) {
    forall i, k :: 0 <= i < k < |Choices(t.routes)| ==>
                     Choices(t.routes)[i].outcome != Choices(t.routes)[k].outcome
  }

  ghost predicate UniqueIds(tasks: seq<TaskDefinition>) {
    forall i, k :: 0 <= i < k < |tasks| ==> tasks[i].id != tasks[k].id
  }

  function TaskIds(tasks: seq<TaskDefinition>): set<string> {
    set t | t in tasks :: t.id
  }

  /** The route graph.  Of two tasks with the same ID the later one wins. */
  function Adjacency(tasks: seq<TaskDefinition>): (g: Graph)
    ensures g.Keys == TaskIds(tasks)
  {
    if tasks == [] then map[]
    else
      var last := tasks[|tasks| - 1];
      assert tasks == tasks[..|tasks| - 1] + [last];
      Adjacency(tasks[..|tasks| - 1])[last.id := Targets(last)]
  }

  lemma AdjacencyAddsTask(tasks: seq<TaskDefinition>, i: nat)
    requires i < |tasks|
    ensures Adjacency(tasks[..i + 1]) == Adjacency(tasks[..i])[tasks[i].id := Targets(tasks[i])]
  {
    assert tasks[..i + 1][..i] == tasks[..i];
  }

  lemma {:induction false} AdjacencyOfTask(tasks: seq<TaskDefinition>, i: nat)
    requires UniqueIds(tasks) && i < |tasks|
    ensures Adjacency(tasks)[tasks[i].id] == Targets(tasks[i])
  {
    hide Targets;
    var n := |tasks| - 1;
    var front := tasks[..n];
    assert Adjacency(tasks) == Adjacency(front)[tasks[n].id := Targets(tasks[n])];
    if i < n {
      assert tasks[i].id != tasks[n].id && front[i] == tasks[i];
      AdjacencyOfTask(front, i);
    }
  }
}
