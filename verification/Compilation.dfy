/** The compiler from workflow definitions to routing tables. */
module Compilation {
  import opened Wrappers
  import opened Graphs
  import opened Workflows
  import CycleCheck

  /** For a route, outcome `None` is `routes.default`. */
  datatype Diagnostic =
    | EmptyWorkflow
    | InvalidEntryTask(entry: string)
    | InvalidRouteTarget(node: string, outcome: Option<string>, target: string)
    | DuplicateTaskId(node: string)
    | CycleDetected(node: string, target: string)
    | UnreachableTask(node: string)
    | IncompleteCondition(node: string)

  predicate IsError(d: Diagnostic) {
    !d.UnreachableTask? && !d.IncompleteCondition?
  }

  datatype CompiledTask = CompiledTask(
    id: string, pluginId: string, metadata: map<string, Value>,
    defaultRoute: Option<string>, routingTable: Option<map<string, string>>)

  datatype CompiledWorkflow = CompiledWorkflow(
    id: string, version: string, startTask: string, tasks: map<string, CompiledTask>)

  datatype CompileResult = CompileResult(
    success: bool, workflow: Option<CompiledWorkflow>, diagnostics: seq<Diagnostic>)

  // ----- what is to be reported -----

  /** Validation goes past the entry task. */
  predicate Checked(w: WorkflowDefinition) {
    w.tasks != [] && w.entryTaskId in TaskIds(w.tasks)
  }

  ghost predicate HasRoute(t: TaskDefinition, outcome: Option<string>, target: string) {
    match outcome
    case None => target in DefaultTarget(t.routes)
    case Some(o) => Choice(o, target) in Choices(t.routes)
  }

  ghost predicate BadRoute(tasks: seq<TaskDefinition>, ids: set<string>, d: Diagnostic) {
    && d.InvalidRouteTarget? && d.target !in ids
    && exists t :: t in tasks && t.id == d.node && HasRoute(t, d.outcome, d.target)
  }

  ghost predicate Repeated(tasks: seq<TaskDefinition>, d: Diagnostic) {
    && d.DuplicateTaskId?
    && exists i, k :: 0 <= i < k < |tasks| && tasks[i].id == d.node && tasks[k].id == d.node
  }

  ghost predicate Outside(tasks: seq<TaskDefinition>, reachable: set<string>, d: Diagnostic) {
    d.UnreachableTask? && d.node in TaskIds(tasks) && d.node !in reachable
  }

  predicate Incomplete(t: TaskDefinition) {
    t.pluginId == "core/condition" && |Choices(t.routes)| < 2
  }

  ghost predicate HalfCondition(tasks: seq<TaskDefinition>, d: Diagnostic) {
    && d.IncompleteCondition?
    && exists t :: t in tasks && t.id == d.node && t.pluginId == "core/condition" && |Choices(t.routes)| < 2
  }

  ghost predicate Unreachable(w: WorkflowDefinition, d: Diagnostic) {
    && d.UnreachableTask? && d.node in TaskIds(w.tasks)
    && !Reaches(Adjacency(w.tasks), w.entryTaskId, d.node)
  }

  /** Every route leads to a task. */
  ghost predicate TargetsExist(tasks: seq<TaskDefinition>) {
    forall t, target :: t in tasks && target in Targets(t) ==> target in TaskIds(tasks)
  }

  ghost predicate Compilable(w: WorkflowDefinition) {
    && Checked(w) && TargetsExist(w.tasks) && UniqueIds(w.tasks)
    && !Cyclic(Adjacency(w.tasks))
  }

  // ----- in which order, and how often -----

  function BadChoices(node: string, cs: seq<Choice>, ids: set<string>): seq<Diagnostic> {
    if cs == [] then []
    else
      var last := cs[|cs| - 1];
      BadChoices(node, cs[..|cs| - 1], ids) +
      if last.target in ids then [] else [InvalidRouteTarget(node, Some(last.outcome), last.target)]
  }

  function BadDefault(t: TaskDefinition, ids: set<string>): seq<Diagnostic> {
    var route := DefaultTarget(t.routes);
    if route == [] || route[0] in ids then [] else [InvalidRouteTarget(t.id, None, route[0])]
  }

  /** Task by task, the default route first. */
  function BadRoutes(tasks: seq<TaskDefinition>, ids: set<string>): seq<Diagnostic> {
    if tasks == [] then []
    else
      var t := tasks[|tasks| - 1];
      BadRoutes(tasks[..|tasks| - 1], ids) + BadDefault(t, ids) + BadChoices(t.id, Choices(t.routes), ids)
  }

  /** Every task whose ID an earlier one has. */
  function Repeats(tasks: seq<TaskDefinition>): seq<Diagnostic> {
    if tasks == [] then []
    else
      var front, t := tasks[..|tasks| - 1], tasks[|tasks| - 1];
      Repeats(front) + if t.id in TaskIds(front) then [DuplicateTaskId(t.id)] else []
  }

  function Outsiders(tasks: seq<TaskDefinition>, reachable: set<string>): seq<Diagnostic> {
    if tasks == [] then []
    else
      var t := tasks[|tasks| - 1];
      Outsiders(tasks[..|tasks| - 1], reachable) + if t.id in reachable then [] else [UnreachableTask(t.id)]
  }

  function HalfConditions(tasks: seq<TaskDefinition>): seq<Diagnostic> {
    if tasks == [] then []
    else
      var t := tasks[|tasks| - 1];
      HalfConditions(tasks[..|tasks| - 1]) + if Incomplete(t) then [IncompleteCondition(t.id)] else []
  }

  /** The diagnostics of a definition that has its entry task. */
  function Report(w: WorkflowDefinition, cycles: seq<Diagnostic>, reachable: set<string>): seq<Diagnostic> {
    BadRoutes(w.tasks, TaskIds(w.tasks)) + Repeats(w.tasks) + cycles + Outsiders(w.tasks, reachable) +
    HalfConditions(w.tasks)
  }

  ghost predicate Names(g: Graph, ds: seq<Diagnostic>, n: string) {
    exists d :: d in ds && d.CycleDetected? && Reaches(g, n, d.node)
  }

  ghost predicate OnTheWay(g: Graph, d: Diagnostic)
    requires d.CycleDetected?
  {
    Edge(g, d.node, d.target) && ReachesCycle(g, d.node) && ReachesCycle(g, d.target)
  }

  /** The cycle diagnostics: each a route between nodes that reach a cycle, no node
      named twice, and each node that reaches a cycle reaches a named one. */
  ghost predicate TellsCycles(g: Graph, ds: seq<Diagnostic>) {
    && (forall d :: d in ds && d.CycleDetected? ==> OnTheWay(g, d))
    && (forall i, k :: 0 <= i < k < |ds| && ds[i].CycleDetected? && ds[k].CycleDetected? ==> ds[i].node != ds[k].node)
    && (forall n :: ReachesCycle(g, n) ==> Names(g, ds, n))
  }

  ghost predicate ReportOf(
    w: WorkflowDefinition, ds: seq<Diagnostic>, cycles: seq<Diagnostic>, reachable: set<string>)
  {
    && ds == Report(w, cycles, reachable)
    && (forall d :: d in cycles ==> d.CycleDetected?)
    && (cycles != [] <==> Cyclic(Adjacency(w.tasks))) && TellsCycles(Adjacency(w.tasks), cycles)
    && forall n :: n in reachable <==> Reaches(Adjacency(w.tasks), w.entryTaskId, n)
  }

  ghost predicate Reported(w: WorkflowDefinition, ds: seq<Diagnostic>) {
    exists cycles, reachable :: ReportOf(w, ds, cycles, reachable)
  }

  lemma {:induction false} InBadChoices(node: string, cs: seq<Choice>, ids: set<string>, d: Diagnostic)
    ensures d in BadChoices(node, cs, ids) <==>
            && d.InvalidRouteTarget? && d.node == node && d.target !in ids
            && d.outcome.Some? && Choice(d.outcome.value, d.target) in cs
  {
    if cs != [] {
      var front, last := cs[..|cs| - 1], cs[|cs| - 1];
      InBadChoices(node, front, ids, d);
      assert cs == front + [last];
    }
  }

  /** The routes reported are those that lead to no task. */
  lemma {:induction false} InBadRoutes(tasks: seq<TaskDefinition>, ids: set<string>, d: Diagnostic)
    ensures d in BadRoutes(tasks, ids) <==> BadRoute(tasks, ids, d)
  {
    hide BadChoices, Choices, DefaultTarget;
    if tasks != [] {
      var front, t := tasks[..|tasks| - 1], tasks[|tasks| - 1];
      InBadRoutes(front, ids, d);
      InBadChoices(t.id, Choices(t.routes), ids, d);
      OneMoreTask(front, t, ids, d);
      assert tasks == front + [t];
      assert d in BadDefault(t, ids) || d in BadChoices(t.id, Choices(t.routes), ids) <==> BadRoute([t], ids, d) by {
        assert t in [t];
        DefaultTargetIsOne(t.routes);
      }
    }
  }

  lemma DefaultTargetIsOne(r: Routes)
    ensures forall target :: target in DefaultTarget(r) <==> DefaultTarget(r) != [] && DefaultTarget(r)[0] == target
  {
  }

  lemma OneMoreTask(tasks: seq<TaskDefinition>, t: TaskDefinition, ids: set<string>, d: Diagnostic)
    ensures BadRoute(tasks + [t], ids, d) <==> BadRoute(tasks, ids, d) || BadRoute([t], ids, d)
  {
    hide HasRoute;
  }

  lemma RepeatedAdds(front: seq<TaskDefinition>, t: TaskDefinition, d: Diagnostic)
    ensures Repeated(front + [t], d) <==>
            Repeated(front, d) || (t.id in TaskIds(front) && d == DuplicateTaskId(t.id))
  {
    var tasks := front + [t];
    assert forall j :: 0 <= j < |front| ==> front[j] == tasks[j] && front[j] in front;
    if t.id in TaskIds(front) {
      var i :| 0 <= i < |front| && front[i].id == t.id;
      assert tasks[i].id == t.id && tasks[|front|].id == t.id;
    }
    if Repeated(front, d) {
      var i, k :| 0 <= i < k < |front| && front[i].id == d.node && front[k].id == d.node;
      assert tasks[i].id == d.node && tasks[k].id == d.node;
    }
  }

  lemma {:induction false} InRepeats(tasks: seq<TaskDefinition>, d: Diagnostic)
    ensures d in Repeats(tasks) <==> Repeated(tasks, d)
  {
    hide TaskIds, Repeated;
    if tasks != [] {
      var front, t := tasks[..|tasks| - 1], tasks[|tasks| - 1];
      InRepeats(front, d);
      RepeatedAdds(front, t, d);
      assert tasks == front + [t];
    } else {
      NoneRepeated(d);
    }
  }

  lemma NoneRepeated(d: Diagnostic)
    ensures !Repeated([], d)
  {
  }

  lemma {:induction false} InOutsiders(tasks: seq<TaskDefinition>, reachable: set<string>, d: Diagnostic)
    ensures d in Outsiders(tasks, reachable) <==> Outside(tasks, reachable, d)
  {
    if tasks != [] {
      var front, t := tasks[..|tasks| - 1], tasks[|tasks| - 1];
      InOutsiders(front, reachable, d);
      assert tasks == front + [t];
      assert TaskIds(tasks) == TaskIds(front) + {t.id};
    }
  }

  lemma {:induction false} InHalfConditions(tasks: seq<TaskDefinition>, d: Diagnostic)
    ensures d in HalfConditions(tasks) <==> HalfCondition(tasks, d)
  {
    if tasks != [] {
      var front, t := tasks[..|tasks| - 1], tasks[|tasks| - 1];
      InHalfConditions(front, d);
      assert tasks == front + [t];
    }
  }

  // ----- order and number -----

  /** In which phase a diagnostic arises. */
  function Phase(d: Diagnostic): nat {
    match d
    case InvalidRouteTarget(_, _, _) => 1
    case DuplicateTaskId(_) => 2
    case CycleDetected(_, _) => 3
    case UnreachableTask(_) => 4
    case IncompleteCondition(_) => 5
    case _ => 0
  }

  ghost predicate ByPhase(ds: seq<Diagnostic>) {
    forall i, k :: 0 <= i < k < |ds| ==> Phase(ds[i]) <= Phase(ds[k])
  }

  lemma AfterPhase(a: seq<Diagnostic>, b: seq<Diagnostic>, p: nat)
    requires ByPhase(a) && ByPhase(b)
    requires (forall d :: d in a ==> Phase(d) <= p) && forall d :: d in b ==> Phase(d) >= p
    ensures ByPhase(a + b)
  {
    forall i, k | 0 <= i < k < |a + b|
      ensures Phase((a + b)[i]) <= Phase((a + b)[k])
    {
      if i < |a| <= k {
        assert a[i] in a && b[k - |a|] in b;
      }
    }
  }

  lemma OnePhase(ds: seq<Diagnostic>, p: nat)
    requires forall d :: d in ds ==> Phase(d) == p
    ensures ByPhase(ds)
  {
  }

  /** The phases report one after the other. */
  lemma ReportByPhase(w: WorkflowDefinition, cycles: seq<Diagnostic>, reachable: set<string>)
    requires forall d :: d in cycles ==> d.CycleDetected?
    ensures ByPhase(Report(w, cycles, reachable))
  {
    hide BadRoutes, Repeats, Outsiders, HalfConditions, TaskIds, ByPhase;
    var routes, repeats := BadRoutes(w.tasks, TaskIds(w.tasks)), Repeats(w.tasks);
    var outsiders, halves := Outsiders(w.tasks, reachable), HalfConditions(w.tasks);
    forall d: Diagnostic
      ensures d in routes ==> Phase(d) == 1
      ensures d in repeats ==> Phase(d) == 2
      ensures d in outsiders ==> Phase(d) == 4
      ensures d in halves ==> Phase(d) == 5
    {
      InBadRoutes(w.tasks, TaskIds(w.tasks), d);
      InRepeats(w.tasks, d);
      InOutsiders(w.tasks, reachable, d);
      InHalfConditions(w.tasks, d);
    }
    OnePhase(routes, 1);
    OnePhase(repeats, 2);
    OnePhase(cycles, 3);
    OnePhase(outsiders, 4);
    OnePhase(halves, 5);
    AfterPhase(routes, repeats, 2);
    AfterPhase(routes + repeats, cycles, 3);
    AfterPhase(routes + repeats + cycles, outsiders, 4);
    AfterPhase(routes + repeats + cycles + outsiders, halves, 5);
  }

  lemma LastChoice(node: string, front: seq<Choice>, c: Choice, ids: set<string>)
    ensures BadChoices(node, front + [c], ids) ==
            BadChoices(node, front, ids) +
            if c.target in ids then [] else [InvalidRouteTarget(node, Some(c.outcome), c.target)]
  {
    assert (front + [c])[..|front|] == front;
  }

  lemma NoBadChoices(node: string, ids: set<string>)
    ensures BadChoices(node, [], ids) == []
  {
  }

  lemma {:induction false} ChoicesInOrder(node: string, cs: seq<Choice>, ds: seq<Choice>, ids: set<string>)
    ensures BadChoices(node, cs + ds, ids) == BadChoices(node, cs, ids) + BadChoices(node, ds, ids)
    ensures |cs| == 1 ==>
              BadChoices(node, cs, ids) ==
              if cs[0].target in ids then [] else [InvalidRouteTarget(node, Some(cs[0].outcome), cs[0].target)]
  {
    hide BadChoices;
    NoBadChoices(node, ids);
    if ds == [] {
      assert cs + ds == cs;
    } else {
      var front, c := ds[..|ds| - 1], ds[|ds| - 1];
      ChoicesInOrder(node, cs, front, ids);
      LastChoice(node, front, c, ids);
      LastChoice(node, cs + front, c, ids);
      assert ds == front + [c] && cs + ds == cs + front + [c];
    }
    if |cs| == 1 {
      LastChoice(node, [], cs[0], ids);
      assert cs == [] + [cs[0]];
    }
  }

  function BadRoutesOf(t: TaskDefinition, ids: set<string>): seq<Diagnostic> {
    BadDefault(t, ids) + BadChoices(t.id, Choices(t.routes), ids)
  }

  lemma LastRoutes(front: seq<TaskDefinition>, t: TaskDefinition, ids: set<string>)
    ensures BadRoutes(front + [t], ids) == BadRoutes(front, ids) + BadRoutesOf(t, ids)
  {
    hide BadDefault, BadChoices;
    assert (front + [t])[..|front|] == front;
  }

  lemma NoRoutes(ids: set<string>)
    ensures BadRoutes([], ids) == []
  {
  }

  /** Bad routes are reported task by task; of one task the default route first, then the
      conditional ones in their order. */
  lemma {:induction false} RoutesInOrder(a: seq<TaskDefinition>, b: seq<TaskDefinition>, ids: set<string>)
    ensures BadRoutes(a + b, ids) == BadRoutes(a, ids) + BadRoutes(b, ids)
    ensures |a| == 1 ==> BadRoutes(a, ids) == BadRoutesOf(a[0], ids)
  {
    hide BadRoutes, BadRoutesOf;
    NoRoutes(ids);
    if b == [] {
      assert a + b == a;
    } else {
      var front, t := b[..|b| - 1], b[|b| - 1];
      RoutesInOrder(a, front, ids);
      LastRoutes(front, t, ids);
      LastRoutes(a + front, t, ids);
      assert b == front + [t] && a + b == a + front + [t];
    }
    if |a| == 1 {
      LastRoutes([], a[0], ids);
      assert a == [] + [a[0]];
    }
  }

  lemma LastWarnings(front: seq<TaskDefinition>, t: TaskDefinition, reachable: set<string>)
    ensures Outsiders(front + [t], reachable) ==
            Outsiders(front, reachable) + if t.id in reachable then [] else [UnreachableTask(t.id)]
    ensures HalfConditions(front + [t]) ==
            HalfConditions(front) + if Incomplete(t) then [IncompleteCondition(t.id)] else []
  {
    hide Incomplete;
    assert (front + [t])[..|front|] == front;
  }

  lemma NoWarnings(reachable: set<string>)
    ensures Outsiders([], reachable) == [] && HalfConditions([]) == []
  {
  }

  /** Warnings come task by task, one for each such task. */
  lemma {:induction false} WarningsInOrder(a: seq<TaskDefinition>, b: seq<TaskDefinition>, reachable: set<string>)
    ensures Outsiders(a + b, reachable) == Outsiders(a, reachable) + Outsiders(b, reachable)
    ensures HalfConditions(a + b) == HalfConditions(a) + HalfConditions(b)
    ensures |a| == 1 ==> Outsiders(a, reachable) == if a[0].id in reachable then [] else [UnreachableTask(a[0].id)]
    ensures |a| == 1 ==> HalfConditions(a) == if Incomplete(a[0]) then [IncompleteCondition(a[0].id)] else []
  {
    hide Incomplete, Outsiders, HalfConditions;
    NoWarnings(reachable);
    if b == [] {
      assert a + b == a;
    } else {
      var front, t := b[..|b| - 1], b[|b| - 1];
      WarningsInOrder(a, front, reachable);
      LastWarnings(front, t, reachable);
      LastWarnings(a + front, t, reachable);
      assert b == front + [t] && a + b == a + front + [t];
    }
    if |a| == 1 {
      LastWarnings([], a[0], reachable);
      assert a == [] + [a[0]];
    }
  }

  /** How many tasks have this ID. */
  function Occurrences(tasks: seq<TaskDefinition>, id: string): nat {
    if tasks == [] then 0 else Occurrences(tasks[..|tasks| - 1], id) + if tasks[|tasks| - 1].id == id then 1 else 0
  }

  lemma {:induction false} OccursIff(tasks: seq<TaskDefinition>, id: string)
    ensures Occurrences(tasks, id) > 0 <==> id in TaskIds(tasks)
  {
    if tasks != [] {
      OccursIff(tasks[..|tasks| - 1], id);
      assert tasks == tasks[..|tasks| - 1] + [tasks[|tasks| - 1]];
    }
  }

  /** An ID is reported once for each task that has it but the first. */
  lemma {:induction false} RepeatsCounted(tasks: seq<TaskDefinition>, id: string)
    ensures multiset(Repeats(tasks))[DuplicateTaskId(id)] ==
            if Occurrences(tasks, id) == 0 then 0 else Occurrences(tasks, id) - 1
  {
    hide TaskIds;
    if tasks != [] {
      var front, t := tasks[..|tasks| - 1], tasks[|tasks| - 1];
      RepeatsCounted(front, id);
      OccursIff(front, id);
    }
  }

  // ----- the phases of compile -----

  method CheckRoutes(tasks: seq<TaskDefinition>, ids: set<string>) returns (ds: seq<Diagnostic>)
    ensures ds == BadRoutes(tasks, ids)
  {
    hide BadDefault, BadChoices;
    ds := [];
    var i := 0;
    while i < |tasks|
      invariant i <= |tasks| && ds == BadRoutes(tasks[..i], ids)
    {
      assert tasks[..i + 1][..i] == tasks[..i];
      ds := CheckTaskRoutes(ds, tasks[i], ids);
      i := i + 1;
    }
    assert tasks[..i] == tasks;
  }

  method CheckTaskRoutes(before: seq<Diagnostic>, task: TaskDefinition, ids: set<string>) returns (ds: seq<Diagnostic>)
    ensures ds == before + BadDefault(task, ids) + BadChoices(task.id, Choices(task.routes), ids)
  {
    ds := before;
    if task.routes.fallback.Some? && task.routes.fallback.value != "" && task.routes.fallback.value !in ids {
      ds := ds + [InvalidRouteTarget(task.id, None, task.routes.fallback.value)];
    }
    var cs := Choices(task.routes);
    var k := 0;
    while k < |cs|
      invariant k <= |cs| && ds == before + BadDefault(task, ids) + BadChoices(task.id, cs[..k], ids)
    {
      assert cs[..k + 1][..k] == cs[..k];
      if cs[k].target !in ids {
        ds := ds + [InvalidRouteTarget(task.id, Some(cs[k].outcome), cs[k].target)];
      }
      k := k + 1;
    }
    assert cs[..k] == cs;
  }

  method CheckDuplicates(tasks: seq<TaskDefinition>) returns (ds: seq<Diagnostic>)
    ensures ds == Repeats(tasks)
  {
    hide TaskIds;
    ds := [];
    var seen: set<string> := {};
    NoIds();
    var i := 0;
    while i < |tasks|
      invariant i <= |tasks| && ds == Repeats(tasks[..i]) && seen == TaskIds(tasks[..i])
    {
      OneMoreId(tasks, i);
      if tasks[i].id in seen {
        ds := ds + [DuplicateTaskId(tasks[i].id)];
      }
      seen := seen + {tasks[i].id};
      i := i + 1;
    }
    assert tasks[..i] == tasks;
  }

  lemma NoIds()
    ensures TaskIds([]) == {}
  {
  }

  lemma OneMoreId(tasks: seq<TaskDefinition>, i: nat)
    requires i < |tasks|
    ensures tasks[..i + 1][..i] == tasks[..i]
    ensures TaskIds(tasks[..i + 1]) == TaskIds(tasks[..i]) + {tasks[i].id}
  {
    assert tasks[..i + 1] == tasks[..i] + [tasks[i]];
  }

  method CheckReachable(tasks: seq<TaskDefinition>, reachable: set<string>) returns (ds: seq<Diagnostic>)
    ensures ds == Outsiders(tasks, reachable)
  {
    ds := [];
    var i := 0;
    while i < |tasks|
      invariant i <= |tasks| && ds == Outsiders(tasks[..i], reachable)
    {
      assert tasks[..i + 1][..i] == tasks[..i];
      if tasks[i].id !in reachable {
        ds := ds + [UnreachableTask(tasks[i].id)];
      }
      i := i + 1;
    }
    assert tasks[..i] == tasks;
  }

  method CheckConditions(tasks: seq<TaskDefinition>) returns (ds: seq<Diagnostic>)
    ensures ds == HalfConditions(tasks)
  {
    hide Incomplete;
    ds := [];
    var i := 0;
    while i < |tasks|
      invariant i <= |tasks| && ds == HalfConditions(tasks[..i])
    {
      assert tasks[..i + 1][..i] == tasks[..i];
      if Incomplete(tasks[i]) {
        ds := ds + [IncompleteCondition(tasks[i].id)];
      }
      i := i + 1;
    }
    assert tasks[..i] == tasks;
  }

  // ----- translation -----

  /** The compiled task goes where the definition goes, outcome by outcome. */
  ghost predicate SameRoutes(c: CompiledTask, t: TaskDefinition) {
    && c.defaultRoute == t.routes.fallback
    && (c.routingTable.Some? <==> Choices(t.routes) != [])
    && forall o, target :: Choice(o, target) in Choices(t.routes) <==>
                             c.routingTable.Some? && o in c.routingTable.value && c.routingTable.value[o] == target
  }

  ghost predicate Translates(c: CompiledTask, t: TaskDefinition) {
    && c.id == t.id && c.pluginId == t.pluginId
    && c.metadata == t.config["name" := t.name]
    && SameRoutes(c, t)
  }

  method CompileTask(task: TaskDefinition) returns (compiled: CompiledTask)
    requires DistinctOutcomes(task)
    ensures Translates(compiled, task)
  {
    var routingTable: map<string, string> := map[];
    var cs := Choices(task.routes);
    var i := 0;
    while i < |cs|
      invariant i <= |cs|
      invariant forall k :: 0 <= k < i ==>
                              cs[k].outcome in routingTable && routingTable[cs[k].outcome] == cs[k].target
      invariant forall o :: o in routingTable ==> Choice(o, routingTable[o]) in cs[..i]
    {
      routingTable := routingTable[cs[i].outcome := cs[i].target];
      assert cs[..i + 1] == cs[..i] + [cs[i]];
      i := i + 1;
    }
    assert cs != [] ==> cs[0].outcome in routingTable;
    compiled := CompiledTask(
      task.id, task.pluginId, task.config["name" := task.name], task.routes.fallback,
      if |routingTable| > 0 then Some(routingTable) else None);
  }

  method Translate(tasks: seq<TaskDefinition>) returns (compiled: map<string, CompiledTask>)
    requires UniqueIds(tasks) && forall t :: t in tasks ==> DistinctOutcomes(t)
    ensures compiled.Keys == TaskIds(tasks)
    ensures forall t :: t in tasks ==> t.id in compiled && Translates(compiled[t.id], t)
  {
    hide Translates, DistinctOutcomes;
    compiled := map[];
    var i := 0;
    while i < |tasks|
      invariant i <= |tasks|
      invariant forall n :: n in compiled <==> exists k :: 0 <= k < i && tasks[k].id == n
      invariant forall k :: 0 <= k < i ==> tasks[k].id in compiled && Translates(compiled[tasks[k].id], tasks[k])
    {
      var c := CompileTask(tasks[i]);
      compiled := compiled[tasks[i].id := c];
      i := i + 1;
    }
  }

  // ----- compile -----

  /** Everything but the cycles: exactly what is to be reported. */
  ghost predicate Deserved(w: WorkflowDefinition, d: Diagnostic) {
    match d
    case EmptyWorkflow => w.tasks == []
    case InvalidEntryTask(e) => w.tasks != [] && !Checked(w) && e == w.entryTaskId
    case InvalidRouteTarget(_, _, _) => Checked(w) && BadRoute(w.tasks, TaskIds(w.tasks), d)
    case DuplicateTaskId(_) => Checked(w) && Repeated(w.tasks, d)
    case UnreachableTask(_) => Checked(w) && Unreachable(w, d)
    case IncompleteCondition(_) => Checked(w) && HalfCondition(w.tasks, d)
    case CycleDetected(_, _) => false
  }

  /** The compiled workflow has the tasks, the start and the routes of the definition. */
  ghost predicate Implements(c: CompiledWorkflow, w: WorkflowDefinition) {
    && c.id == w.id && c.version == w.version && c.startTask == w.entryTaskId
    && c.tasks.Keys == TaskIds(w.tasks)
    && forall t :: t in w.tasks ==> Translates(c.tasks[t.id], t)
  }

  method DetectCycles(tasks: seq<TaskDefinition>) returns (ds: seq<Diagnostic>)
    ensures ds != [] <==> Cyclic(Adjacency(tasks))
    ensures forall d :: d in ds ==> d.CycleDetected?
    ensures TellsCycles(Adjacency(tasks), ds)
  {
    hide Adjacency, Cyclic, ReachesCycle, Reaches, TellsCycles;
    hide CycleCheck.Told, CycleCheck.OnTheWay, CycleCheck.OncePerNode;
    var found := CycleCheck.DetectCycles(tasks);
    ds := [];
    var i := 0;
    while i < |found|
      invariant i <= |found| && |ds| == i
      invariant forall k :: 0 <= k < i ==> ds[k] == CycleDetected(found[k].node, found[k].target)
    {
      ds := ds + [CycleDetected(found[i].node, found[i].target)];
      i := i + 1;
    }
    SameRoutesTold(Adjacency(tasks), found, ds);
  }

  lemma SameRoutesTold(g: Graph, found: seq<CycleCheck.BackRoute>, ds: seq<Diagnostic>)
    requires |ds| == |found|
    requires forall k :: 0 <= k < |ds| ==> ds[k] == CycleDetected(found[k].node, found[k].target)
    requires CycleCheck.OncePerNode(found) && forall d :: d in found ==> CycleCheck.OnTheWay(g, d)
    requires forall n :: ReachesCycle(g, n) ==> CycleCheck.Told(g, found, n)
    ensures TellsCycles(g, ds)
  {
    hide ReachesCycle, CycleCheck.Told, Names, CycleCheck.OnTheWay, OnTheWay;
    forall d | d in ds
      ensures d.CycleDetected? && OnTheWay(g, d)
    {
      var k :| 0 <= k < |ds| && ds[k] == d;
      SameRoute(g, found[k], d);
    }
    forall n | ReachesCycle(g, n)
      ensures Names(g, ds, n)
    {
      SameNames(g, found, ds, n);
    }
  }

  lemma SameRoute(g: Graph, r: CycleCheck.BackRoute, d: Diagnostic)
    requires CycleCheck.OnTheWay(g, r) && d == CycleDetected(r.node, r.target)
    ensures OnTheWay(g, d)
  {
  }

  lemma SameNames(g: Graph, found: seq<CycleCheck.BackRoute>, ds: seq<Diagnostic>, n: string)
    requires |ds| == |found|
    requires forall k :: 0 <= k < |ds| ==> ds[k] == CycleDetected(found[k].node, found[k].target)
    requires CycleCheck.Told(g, found, n)
    ensures Names(g, ds, n)
  {
    hide Reaches;
    var r :| r in found && Reaches(g, n, r.node);
    var k :| 0 <= k < |found| && found[k] == r;
    assert ds[k] in ds;
  }

  /** Diagnostics of other phases around them change nothing. */
  lemma ToldAmongOthers(g: Graph, a: seq<Diagnostic>, cycles: seq<Diagnostic>, b: seq<Diagnostic>)
    requires TellsCycles(g, cycles)
    requires (forall d :: d in a ==> !d.CycleDetected?) && forall d :: d in b ==> !d.CycleDetected?
    ensures TellsCycles(g, a + cycles + b)
  {
    hide ReachesCycle, Reaches, OnTheWay;
    var ds := a + cycles + b;
    assert forall i :: 0 <= i < |a| ==> ds[i] in a;
    assert forall i :: |a| + |cycles| <= i < |ds| ==> ds[i] in b;
    assert forall i :: |a| <= i < |a| + |cycles| ==> ds[i] == cycles[i - |a|];
    forall n | ReachesCycle(g, n)
      ensures Names(g, ds, n)
    {
      var d :| d in cycles && d.CycleDetected? && Reaches(g, n, d.node);
      assert d in ds;
    }
  }

  /** The diagnostics of a definition that has its entry task. */
  method Validate(w: WorkflowDefinition) returns (ds: seq<Diagnostic>)
    requires Checked(w)
    ensures Reported(w, ds)
  {
    hide Adjacency, Cyclic, Reaches, BadRoutes, Repeats, Outsiders, HalfConditions, TaskIds, TellsCycles;
    var routes := CheckRoutes(w.tasks, TaskIds(w.tasks));
    var duplicates := CheckDuplicates(w.tasks);
    var cycles := DetectCycles(w.tasks);
    var reachable := CycleCheck.FindReachable(w.entryTaskId, w.tasks);
    var unreachable := CheckReachable(w.tasks, reachable);
    var conditions := CheckConditions(w.tasks);
    ds := routes + duplicates + cycles + unreachable + conditions;
    assert ReportOf(w, ds, cycles, reachable);
  }

  lemma InReport(w: WorkflowDefinition, cycles: seq<Diagnostic>, reachable: set<string>, d: Diagnostic)
    requires Checked(w) && forall c :: c in cycles ==> c.CycleDetected?
    ensures d in Report(w, cycles, reachable) <==>
            match d
            case InvalidRouteTarget(_, _, _) => BadRoute(w.tasks, TaskIds(w.tasks), d)
            case DuplicateTaskId(_) => Repeated(w.tasks, d)
            case UnreachableTask(_) => Outside(w.tasks, reachable, d)
            case IncompleteCondition(_) => HalfCondition(w.tasks, d)
            case CycleDetected(_, _) => d in cycles
            case _ => false
  {
    hide BadRoutes, Repeats, Outsiders, HalfConditions, TaskIds;
    InBadRoutes(w.tasks, TaskIds(w.tasks), d);
    InRepeats(w.tasks, d);
    InOutsiders(w.tasks, reachable, d);
    InHalfConditions(w.tasks, d);
  }

  lemma ReportTells(w: WorkflowDefinition, cycles: seq<Diagnostic>, reachable: set<string>)
    requires TellsCycles(Adjacency(w.tasks), cycles)
    ensures TellsCycles(Adjacency(w.tasks), Report(w, cycles, reachable))
  {
    hide BadRoutes, Repeats, Outsiders, HalfConditions, TaskIds, TellsCycles, Adjacency;
    var ids := TaskIds(w.tasks);
    var a := BadRoutes(w.tasks, ids) + Repeats(w.tasks);
    var b := Outsiders(w.tasks, reachable) + HalfConditions(w.tasks);
    forall d | d in a || d in b
      ensures !d.CycleDetected?
    {
      InBadRoutes(w.tasks, ids, d);
      InRepeats(w.tasks, d);
      InOutsiders(w.tasks, reachable, d);
      InHalfConditions(w.tasks, d);
    }
    ToldAmongOthers(Adjacency(w.tasks), a, cycles, b);
    assert Report(w, cycles, reachable) == a + cycles + b;
  }

  /** The report holds exactly what is to be reported. */
  lemma ReportedIsDeserved(w: WorkflowDefinition, ds: seq<Diagnostic>)
    requires Checked(w) && Reported(w, ds)
    ensures forall d :: d in ds && !d.CycleDetected? <==> Deserved(w, d)
    ensures (exists d :: d in ds && d.CycleDetected?) <==> Cyclic(Adjacency(w.tasks))
    ensures TellsCycles(Adjacency(w.tasks), ds) && ByPhase(ds)
  {
    hide Adjacency, Cyclic, Reaches, BadRoute, Repeated, HalfCondition, TaskIds, Report, TellsCycles, ByPhase;
    var cycles, reachable :| ReportOf(w, ds, cycles, reachable);
    ReportByPhase(w, cycles, reachable);
    ReportTells(w, cycles, reachable);
    forall d
      ensures d in ds && !d.CycleDetected? <==> Deserved(w, d)
      ensures d in ds && d.CycleDetected? <==> d in cycles
    {
      InReport(w, cycles, reachable, d);
    }
    if cycles != [] {
      assert cycles[0] in cycles;
    }
  }

  /** Compilation succeeds exactly on the compilable definitions. */
  method Compile(w: WorkflowDefinition) returns (r: CompileResult)
    requires forall t :: t in w.tasks ==> DistinctOutcomes(t)
    ensures r.success <==> Compilable(w)
    ensures r.workflow.Some? <==> r.success
    ensures r.success ==> Implements(r.workflow.value, w)
    ensures forall d :: d in r.diagnostics && !d.CycleDetected? <==> Deserved(w, d)
    ensures (exists d :: d in r.diagnostics && d.CycleDetected?) <==> Checked(w) && Cyclic(Adjacency(w.tasks))
    ensures Checked(w) ==> Reported(w, r.diagnostics) && TellsCycles(Adjacency(w.tasks), r.diagnostics)
    ensures ByPhase(r.diagnostics)
  {
    hide Reported, TellsCycles, Deserved, Cyclic, Adjacency, Implements, DistinctOutcomes, TaskIds, ReachesCycle;
    if w.tasks == [] {
      NothingElse(w, EmptyWorkflow);
      return CompileResult(false, None, [EmptyWorkflow]);
    }
    var ids := TaskIds(w.tasks);
    if w.entryTaskId !in ids {
      NothingElse(w, InvalidEntryTask(w.entryTaskId));
      return CompileResult(false, None, [InvalidEntryTask(w.entryTaskId)]);
    }
    var ds := Validate(w);
    ReportedIsDeserved(w, ds);
    ErrorsDecide(w, ds);
    if i :| 0 <= i < |ds| && IsError(ds[i]) {
      return CompileResult(false, None, ds);
    }
    var tasks := Translate(w.tasks);
    r := CompileResult(true, Some(CompiledWorkflow(w.id, w.version, w.entryTaskId, tasks)), ds);
    ImplementsIfTranslated(r.workflow.value, w);
  }

  lemma NothingElse(w: WorkflowDefinition, only: Diagnostic)
    requires !Checked(w)
    requires only == if w.tasks == [] then EmptyWorkflow else InvalidEntryTask(w.entryTaskId)
    ensures forall d :: d in [only] && !d.CycleDetected? <==> Deserved(w, d)
    ensures !only.CycleDetected?
  {
  }

  lemma ImplementsIfTranslated(c: CompiledWorkflow, w: WorkflowDefinition)
    requires c.id == w.id && c.version == w.version && c.startTask == w.entryTaskId
    requires c.tasks.Keys == TaskIds(w.tasks)
    requires forall t :: t in w.tasks ==> t.id in c.tasks && Translates(c.tasks[t.id], t)
    ensures Implements(c, w)
  {
    hide Translates;
  }

  /** There is no error among the diagnostics exactly if the definition compiles. */
  lemma ErrorsDecide(w: WorkflowDefinition, ds: seq<Diagnostic>)
    requires Checked(w)
    requires forall d :: d in ds && !d.CycleDetected? <==> Deserved(w, d)
    requires (exists d :: d in ds && d.CycleDetected?) <==> Cyclic(Adjacency(w.tasks))
    ensures (exists d :: d in ds && IsError(d)) <==> !Compilable(w)
  {
    hide Cyclic, Adjacency, Reaches, TaskIds;
    if !TargetsExist(w.tasks) {
      var t, target :| t in w.tasks && target in Targets(t) && target !in TaskIds(w.tasks);
      var o := RouteTo(t, target);
      var d := InvalidRouteTarget(t.id, o, target);
      assert BadRoute(w.tasks, TaskIds(w.tasks), d);
      assert Deserved(w, d);
    }
    if !UniqueIds(w.tasks) {
      var i, k :| 0 <= i < k < |w.tasks| && w.tasks[i].id == w.tasks[k].id;
      var d := DuplicateTaskId(w.tasks[i].id);
      assert Repeated(w.tasks, d);
      assert Deserved(w, d);
    }
    if d :| d in ds && IsError(d) && !d.CycleDetected? {
      assert Deserved(w, d);
      if d.InvalidRouteTarget? {
        var t :| t in w.tasks && t.id == d.node && HasRoute(t, d.outcome, d.target);
        RouteIsTarget(t, d.outcome, d.target);
      }
    }
  }

  lemma RouteTo(t: TaskDefinition, target: string) returns (o: Option<string>)
    requires target in Targets(t)
    ensures HasRoute(t, o, target)
  {
    if target in DefaultTarget(t.routes) {
      o := None;
    } else {
      var i :| 0 <= i < |Choices(t.routes)| && Choices(t.routes)[i].target == target;
      o := Some(Choices(t.routes)[i].outcome);
    }
  }

  lemma RouteIsTarget(t: TaskDefinition, o: Option<string>, target: string)
    requires HasRoute(t, o, target)
    ensures target in Targets(t)
  {
    if o.Some? {
      var i :| 0 <= i < |Choices(t.routes)| && Choices(t.routes)[i] == Choice(o.value, target);
      assert ChoiceTargets(Choices(t.routes))[i] == target;
    }
  }

  // ----- running a compiled workflow -----

  /** Whatever the outcome, execution goes from `a` to one of the routes of `a`. */
  ghost predicate Goes(c: CompiledWorkflow, a: string, b: string) {
    && a in c.tasks
    && var t := c.tasks[a];
       || (t.defaultRoute == Some(b) && b != "")
       || (t.routingTable.Some? && exists o :: o in t.routingTable.value && t.routingTable.value[o] == b)
  }

  ghost predicate IsRun(c: CompiledWorkflow, run: seq<string>) {
    && run != [] && run[0] == c.startTask
    && forall i :: 0 <= i < |run| - 1 ==> Goes(c, run[i], run[i + 1])
  }

  lemma GoesAlongEdge(c: CompiledWorkflow, w: WorkflowDefinition, a: string, b: string)
    requires Compilable(w) && Implements(c, w) && Goes(c, a, b)
    ensures Edge(Adjacency(w.tasks), a, b) && b in c.tasks
  {
    hide Cyclic, Adjacency;
    var i :| 0 <= i < |w.tasks| && w.tasks[i].id == a;
    var t := w.tasks[i];
    var k := c.tasks[a];
    assert Translates(k, t);
    if !(k.defaultRoute == Some(b) && b != "") {
      var o :| o in k.routingTable.value && k.routingTable.value[o] == b;
      assert Choice(o, b) in Choices(t.routes);
      assert HasRoute(t, Some(o), b);
      RouteIsTarget(t, Some(o), b);
    }
    AdjacencyOfTask(w.tasks, i);
  }

  /** The compiled tables and the definition have the same successors. */
  lemma SameSuccessors(c: CompiledWorkflow, w: WorkflowDefinition, a: string, b: string)
    requires Compilable(w) && Implements(c, w)
    ensures Goes(c, a, b) <==> Edge(Adjacency(w.tasks), a, b)
  {
    hide Cyclic, Adjacency;
    if Goes(c, a, b) {
      GoesAlongEdge(c, w, a, b);
    }
    if Edge(Adjacency(w.tasks), a, b) {
      var i :| 0 <= i < |w.tasks| && w.tasks[i].id == a;
      AdjacencyOfTask(w.tasks, i);
      var t := w.tasks[i];
      assert Translates(c.tasks[a], t);
      var o := RouteTo(t, b);
      if o.Some? {
        assert Choice(o.value, b) in Choices(t.routes);
      }
    }
  }

  /** A compiled workflow always ends: no run visits more tasks than there are, and
      it stays among them. */
  lemma RunsEnd(c: CompiledWorkflow, w: WorkflowDefinition, run: seq<string>)
    requires Compilable(w) && Implements(c, w) && IsRun(c, run)
    ensures |run| <= |w.tasks|
    ensures forall i :: 0 <= i < |run| ==> run[i] in c.tasks
  {
    hide Implements, Compilable, Adjacency, Cyclic, Goes;
    StartsInside(c, w);
    forall i | 0 <= i < |run|
      ensures run[i] in c.tasks
    {
      if i > 0 {
        assert Goes(c, run[i - 1], run[(i - 1) + 1]);
        GoesAlongEdge(c, w, run[i - 1], run[i]);
      }
    }
    forall i | 0 <= i < |run| - 1
      ensures Edge(Adjacency(w.tasks), run[i], run[i + 1])
    {
      GoesAlongEdge(c, w, run[i], run[i + 1]);
    }
    assert run[|run| - 1] in c.tasks;
    PathsAmongKeysAreShort(Adjacency(w.tasks), run);
    FewIds(w.tasks);
  }

  lemma StartsInside(c: CompiledWorkflow, w: WorkflowDefinition)
    requires Compilable(w) && Implements(c, w)
    ensures c.startTask in c.tasks && c.tasks.Keys == Adjacency(w.tasks).Keys && !Cyclic(Adjacency(w.tasks))
  {
  }

  lemma {:induction false} FewIds(tasks: seq<TaskDefinition>)
    ensures |Adjacency(tasks)| <= |tasks|
  {
    if tasks != [] {
      var last := tasks[|tasks| - 1];
      var front := Adjacency(tasks[..|tasks| - 1]);
      FewIds(tasks[..|tasks| - 1]);
      assert Adjacency(tasks).Keys == front.Keys + {last.id};
      assert |front.Keys| == |front| && |Adjacency(tasks).Keys| == |Adjacency(tasks)|;
    }
  }
}
