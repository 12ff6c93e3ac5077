/** Between workflow definitions and the canvas. */
module Adapter {
  import opened Wrappers
  import opened Graphs
  import opened Workflows
  import opened Canvas

  // ----- deserialize -----

  function Digits(n: nat): (s: string)
    ensures s != []
  {
    var digit := ['0' + (n % 10) as char];
    if n < 10 then digit else Digits(n / 10) + digit
  }

  function DigitValue(c: char): nat {
    if '0' <= c then c as int - '0' as int else 0
  }

  function Decimal(s: string): nat {
    if s == [] then 0 else 10 * Decimal(s[..|s| - 1]) + DigitValue(s[|s| - 1])
  }

  /** Edge numbers are written in decimal, without leading zeros. */
  lemma {:induction false} DigitsMean(n: nat)
    ensures forall c :: c in Digits(n) ==> '0' <= c <= '9'
    ensures Decimal(Digits(n)) == n
    ensures n > 0 ==> Digits(n)[0] != '0'
  {
    if n >= 10 {
      DigitsMean(n / 10);
      var s := Digits(n);
      assert s[..|s| - 1] == Digits(n / 10);
    }
  }

  /** Edge numbers are written differently. */
  lemma {:induction false} DigitsDiffer(m: nat, n: nat)
    requires m != n
    ensures Digits(m) != Digits(n)
  {
    if Digits(m) == Digits(n) {
      var a, b := Digits(m), Digits(n);
      assert a[|a| - 1] == '0' + (m % 10) as char && b[|b| - 1] == '0' + (n % 10) as char;
      assert m % 10 == n % 10;
      if m >= 10 && n >= 10 {
        assert a[..|a| - 1] == Digits(m / 10) && b[..|b| - 1] == Digits(n / 10);
        DigitsDiffer(m / 10, n / 10);
      }
    }
  }

  function EdgeId(n: nat): string {
    "edge-import-" + Digits(n)
  }

  lemma EdgeIdsDiffer(m: nat, n: nat)
    requires m != n
    ensures EdgeId(m) != EdgeId(n)
  {
    DigitsDiffer(m, n);
    hide Digits;
    assert EdgeId(m)[|"edge-import-"|..] == Digits(m) && EdgeId(n)[|"edge-import-"|..] == Digits(n);
  }

  function ImportedEdge(n: nat, source: string, target: string, outcome: Option<string>): CanvasEdge {
    CanvasEdge(EdgeId(n), source, target, outcome, None, outcome)
  }

  function ImportedNode(t: TaskDefinition, saved: map<string, Position>): CanvasNode {
    CanvasNode(
      t.id, t.pluginId, if t.id in saved then saved[t.id] else Position(0, 0), map["name" := t.name] + t.config)
  }

  function SavedPositions(w: WorkflowDefinition): map<string, Position> {
    if w.positions.Some? then w.positions.value else map[]
  }

  /** The edges of the choices, numbered from `n`. */
  function ChoiceEdges(source: string, cs: seq<Choice>, n: nat): (es: seq<CanvasEdge>)
    ensures |es| == |cs|
    ensures forall i :: 0 <= i < |cs| ==>
                          es[i] == ImportedEdge(n + i, source, cs[i].target, Some(cs[i].outcome))
  {
    if cs == [] then []
    else
      ChoiceEdges(source, cs[..|cs| - 1], n) +
      [ImportedEdge(n + |cs| - 1, source, cs[|cs| - 1].target, Some(cs[|cs| - 1].outcome))]
  }

  function DefaultEdges(t: TaskDefinition, n: nat): seq<CanvasEdge> {
    if DefaultTarget(t.routes) == [] then []
    else [ImportedEdge(n, t.id, DefaultTarget(t.routes)[0], None)]
  }

  function TaskEdges(t: TaskDefinition, n: nat): seq<CanvasEdge> {
    var first := DefaultEdges(t, n);
    first + ChoiceEdges(t.id, Choices(t.routes), n + |first|)
  }

  function ImportedEdges(tasks: seq<TaskDefinition>): seq<CanvasEdge> {
    if tasks == [] then []
    else
      var before := ImportedEdges(tasks[..|tasks| - 1]);
      before + TaskEdges(tasks[|tasks| - 1], |before|)
  }

  function ImportedNodes(tasks: seq<TaskDefinition>, saved: map<string, Position>): (ns: seq<CanvasNode>)
    ensures |ns| == |tasks| && forall i :: 0 <= i < |tasks| ==> ns[i] == ImportedNode(tasks[i], saved)
  {
    if tasks == [] then []
    else ImportedNodes(tasks[..|tasks| - 1], saved) + [ImportedNode(tasks[|tasks| - 1], saved)]
  }

  function Imported(w: WorkflowDefinition): BuilderState {
    BuilderState(ImportedNodes(w.tasks, SavedPositions(w)), ImportedEdges(w.tasks), None, [])
  }

  lemma OneMoreChoice(source: string, cs: seq<Choice>, k: nat, n: nat)
    requires k < |cs|
    ensures ChoiceEdges(source, cs[..k + 1], n) ==
            ChoiceEdges(source, cs[..k], n) + [ImportedEdge(n + k, source, cs[k].target, Some(cs[k].outcome))]
  {
    hide ImportedEdge;
    assert cs[..k + 1][..k] == cs[..k];
  }

  method PushChoices(edges: seq<CanvasEdge>, source: string, cs: seq<Choice>) returns (pushed: seq<CanvasEdge>)
    ensures pushed == edges + ChoiceEdges(source, cs, |edges|)
  {
    hide ImportedEdge;
    pushed := edges;
    var edgeCounter := |edges|;
    var k := 0;
    while k < |cs|
      invariant k <= |cs| && edgeCounter == |pushed|
      invariant pushed == edges + ChoiceEdges(source, cs[..k], |edges|)
    {
      OneMoreChoice(source, cs, k, |edges|);
      pushed := pushed + [ImportedEdge(edgeCounter, source, cs[k].target, Some(cs[k].outcome))];
      edgeCounter := edgeCounter + 1;
      k := k + 1;
    }
    assert cs[..k] == cs;
  }

  /** The edges of one task go to the end, and the counter goes on. */
  method PushTaskEdges(edges: seq<CanvasEdge>, task: TaskDefinition) returns (pushed: seq<CanvasEdge>)
    ensures pushed == edges + TaskEdges(task, |edges|)
  {
    hide ImportedEdge, ChoiceEdges;
    pushed := edges;
    if task.routes.fallback.Some? && task.routes.fallback.value != "" {
      pushed := pushed + [ImportedEdge(|edges|, task.id, task.routes.fallback.value, None)];
    }
    assert pushed == edges + DefaultEdges(task, |edges|);
    if task.routes.conditional.Some? {
      pushed := PushChoices(pushed, task.id, task.routes.conditional.value);
    } else {
      NoChoices(task.id, |pushed|);
    }
  }

  lemma NoChoices(source: string, n: nat)
    ensures ChoiceEdges(source, [], n) == []
  {
  }

  // ----- what an imported canvas looks like -----

  /** All positions are the origin, and there is more than one node. */
  predicate NeedsAutoLayout(s: BuilderState) {
    |s.nodes| > 1 && forall n :: n in s.nodes ==> n.position.x == 0 && n.position.y == 0
  }

  /** The definition has a position for this task. */
  predicate HasSaved(w: WorkflowDefinition, id: string) {
    w.positions.Some? && id in w.positions.value
  }

  /** The node of a task: its position is the saved one, or else the origin, and its
      properties are the configuration and the name, which the configuration overrides. */
  ghost predicate NodeOf(w: WorkflowDefinition, t: TaskDefinition, n: CanvasNode) {
    && n.id == t.id && n.pluginId == t.pluginId
    && (HasSaved(w, t.id) ==> n.position == w.positions.value[t.id])
    && (!HasSaved(w, t.id) ==> n.position.x == 0 && n.position.y == 0)
    && (forall k :: k in n.data <==> k == "name" || k in t.config)
    && forall k :: k in n.data ==> n.data[k] == if k in t.config then t.config[k] else t.name
  }

  /** Nothing says where any task goes. */
  ghost predicate NowhereSaved(w: WorkflowDefinition) {
    forall t :: t in w.tasks && HasSaved(w, t.id) ==>
                  w.positions.value[t.id].x == 0 && w.positions.value[t.id].y == 0
  }

  lemma ImportedNodesAre(w: WorkflowDefinition)
    ensures var ns := Imported(w).nodes;
            |ns| == |w.tasks| && forall i :: 0 <= i < |ns| ==> NodeOf(w, w.tasks[i], ns[i])
  {
  }

  /** An imported canvas is laid out exactly if it has two nodes or more and no saved
      position other than the origin. */
  lemma NeedsLayoutIffNowhereSaved(w: WorkflowDefinition)
    ensures NeedsAutoLayout(Imported(w)) <==> |w.tasks| >= 2 && NowhereSaved(w)
  {
    hide Imported, NodeOf;
    var ns := Imported(w).nodes;
    ImportedNodesAre(w);
    forall i | 0 <= i < |ns|
      ensures ns[i].position.x == 0 && ns[i].position.y == 0 <==>
              (HasSaved(w, w.tasks[i].id) ==>
                 w.positions.value[w.tasks[i].id].x == 0 && w.positions.value[w.tasks[i].id].y == 0)
    {
      assert NodeOf(w, w.tasks[i], ns[i]) by { ImportedNodesAre(w); }
      PositionOf(w, w.tasks[i], ns[i]);
    }
    if NeedsAutoLayout(Imported(w)) {
      forall t | t in w.tasks && HasSaved(w, t.id)
        ensures w.positions.value[t.id].x == 0 && w.positions.value[t.id].y == 0
      {
        var i :| 0 <= i < |w.tasks| && w.tasks[i] == t;
        assert ns[i] in ns;
      }
    }
    if NowhereSaved(w) {
      forall n | n in ns
        ensures n.position.x == 0 && n.position.y == 0
      {
        var i :| 0 <= i < |ns| && ns[i] == n;
        assert w.tasks[i] in w.tasks;
      }
    }
  }

  lemma PositionOf(w: WorkflowDefinition, t: TaskDefinition, n: CanvasNode)
    requires NodeOf(w, t, n)
    ensures n.position.x == 0 && n.position.y == 0 <==>
            (HasSaved(w, t.id) ==> w.positions.value[t.id].x == 0 && w.positions.value[t.id].y == 0)
  {
  }

  method Deserialize(w: WorkflowDefinition) returns (s: BuilderState)
    ensures s == Imported(w)
    ensures |s.nodes| == |w.tasks| && forall i :: 0 <= i < |s.nodes| ==> NodeOf(w, w.tasks[i], s.nodes[i])
    ensures NeedsAutoLayout(s) <==> |w.tasks| >= 2 && NowhereSaved(w)
    ensures s.selectedNodeId == None && s.validationErrors == []
  {
    hide TaskEdges, NodeOf, NowhereSaved, NeedsAutoLayout;
    var edges: seq<CanvasEdge> := [];
    var i := 0;
    while i < |w.tasks|
      invariant i <= |w.tasks| && edges == ImportedEdges(w.tasks[..i])
    {
      assert w.tasks[..i + 1][..i] == w.tasks[..i];
      edges := PushTaskEdges(edges, w.tasks[i]);
      i := i + 1;
    }
    assert w.tasks[..i] == w.tasks;
    s := BuilderState(ImportedNodes(w.tasks, SavedPositions(w)), edges, None, []);
    ImportedNodesAre(w);
    NeedsLayoutIffNowhereSaved(w);
  }

  /** The edges of a task: one for a default route, without handle and label, and one
      for each conditional route, with its outcome as handle and label. */
  lemma TaskEdgesAre(t: TaskDefinition, n: nat)
    ensures var es, d, cs := TaskEdges(t, n), |DefaultTarget(t.routes)|, Choices(t.routes);
            && |es| == d + |cs|
            && (forall i :: 0 <= i < |es| ==> es[i].source == t.id && es[i].targetHandle == None)
            && (forall i :: 0 <= i < d ==>
                  && t.routes.fallback == Some(es[i].target)
                  && es[i].sourceHandle == None && es[i].caption == None)
            && forall i :: 0 <= i < |cs| ==>
                 && es[d + i].target == cs[i].target
                 && es[d + i].sourceHandle == Some(cs[i].outcome) && es[d + i].caption == Some(cs[i].outcome)
  {
    hide EdgeId;
  }

  lemma TaskEdgesNumbered(t: TaskDefinition, n: nat)
    ensures forall i :: 0 <= i < |TaskEdges(t, n)| ==> TaskEdges(t, n)[i].id == EdgeId(n + i)
  {
    hide EdgeId;
  }

  /** The edges are numbered through. */
  lemma {:induction false} EdgesNumbered(tasks: seq<TaskDefinition>)
    ensures var es := ImportedEdges(tasks);
            forall i :: 0 <= i < |es| ==> es[i].id == EdgeId(i)
  {
    hide EdgeId, TaskEdges;
    if tasks != [] {
      var front, last := tasks[..|tasks| - 1], tasks[|tasks| - 1];
      EdgesNumbered(front);
      TaskEdgesNumbered(last, |ImportedEdges(front)|);
    }
  }

  // ----- serialize -----

  function EdgesFrom(edges: seq<CanvasEdge>, source: string): seq<CanvasEdge> {
    if edges == [] then []
    else
      EdgesFrom(edges[..|edges| - 1], source) +
      if edges[|edges| - 1].source == source then [edges[|edges| - 1]] else []
  }

  /** edges.find(e => e.label === outcome || e.sourceHandle === outcome) */
  function FindEdge(edges: seq<CanvasEdge>, outcome: string): (found: Option<CanvasEdge>)
    ensures found.None? ==>
              forall i :: 0 <= i < |edges| ==>
                            edges[i].caption != Some(outcome) && edges[i].sourceHandle != Some(outcome)
    ensures forall i :: 0 <= i < |edges| &&
                        (edges[i].caption == Some(outcome) || edges[i].sourceHandle == Some(outcome)) &&
                        (forall k :: 0 <= k < i ==>
                                       edges[k].caption != Some(outcome) && edges[k].sourceHandle != Some(outcome)) ==>
                          found == Some(edges[i])
  {
    if edges == [] then None
    else if edges[0].caption == Some(outcome) || edges[0].sourceHandle == Some(outcome) then Some(edges[0])
    else FindEdge(edges[1..], outcome)
  }

  function Branch(edges: seq<CanvasEdge>, outcome: string): seq<Choice> {
    match FindEdge(edges, outcome)
    case None => []
    case Some(e) => [Choice(outcome, e.target)]
  }

  function ExportedRoutes(n: CanvasNode, outgoing: seq<CanvasEdge>): Routes {
    if n.pluginId == "core/condition" then
      var conditional := Branch(outgoing, "true") + Branch(outgoing, "false");
      Routes(None, if conditional == [] then None else Some(conditional))
    else
      Routes(if outgoing == [] then None else Some(outgoing[0].target), None)
  }

  /** s.replace('core/', ''): the first occurrence goes. */
  function ShortName(s: string): string {
    if s == "" then ""
    else if "core/" <= s then s[5..]
    else [s[0]] + ShortName(s[1..])
  }

  /** `core/` stands at place `k`. */
  predicate CoreAt(s: string, k: nat)
    requires k <= |s|
  {
    "core/" <= s[k..]
  }

  lemma CoreLater(s: string, k: nat)
    requires k < |s|
    ensures CoreAt(s[1..], k) <==> CoreAt(s, k + 1)
    ensures CoreAt(s, 0) <==> "core/" <= s
  {
    assert s[1..][k..] == s[k + 1..] && s[0..] == s;
  }

  /** Only the first occurrence goes. */
  lemma {:induction false} ShortNameDropsFirst(s: string, i: nat)
    requires i + 5 <= |s| && CoreAt(s, i) && forall k :: 0 <= k < i ==> !CoreAt(s, k)
    ensures ShortName(s) == s[..i] + s[i + 5..]
  {
    hide CoreAt;
    CoreLater(s, 0);
    if i > 0 {
      CoreLater(s, i - 1);
      forall k | 0 <= k < i - 1
        ensures !CoreAt(s[1..], k)
      {
        CoreLater(s, k);
      }
      ShortNameDropsFirst(s[1..], i - 1);
      assert s[..i] == [s[0]] + s[1..][..i - 1] && s[1..][i - 1 + 5..] == s[i + 5..];
    }
  }

  function ExportedName(n: CanvasNode): Value {
    if "name" in n.data && Truthy(n.data["name"]) then n.data["name"] else Text(ShortName(n.pluginId))
  }

  function ExportedTask(n: CanvasNode, edges: seq<CanvasEdge>): TaskDefinition {
    TaskDefinition(
      n.id, n.pluginId, ExportedName(n), n.data - {"name"}, ExportedRoutes(n, EdgesFrom(edges, n.id)))
  }

  function ExportedTasks(nodes: seq<CanvasNode>, edges: seq<CanvasEdge>): (ts: seq<TaskDefinition>)
    ensures |ts| == |nodes| && forall i :: 0 <= i < |nodes| ==> ts[i] == ExportedTask(nodes[i], edges)
  {
    if nodes == [] then []
    else ExportedTasks(nodes[..|nodes| - 1], edges) + [ExportedTask(nodes[|nodes| - 1], edges)]
  }

  /** What a node is saved as: its routes are told by the edges that leave it, its configuration
      is what it holds but the name, and an empty name gives way to the default one. */
  lemma ExportedTaskIs(n: CanvasNode, edges: seq<CanvasEdge>)
    ensures var t, out := ExportedTask(n, edges), EdgesFrom(edges, n.id);
            && t.id == n.id && t.pluginId == n.pluginId
            && (forall k :: k in t.config <==> k in n.data && k != "name")
            && (forall k :: k in t.config ==> t.config[k] == n.data[k])
            && ("name" in n.data && Truthy(n.data["name"]) ==> t.name == n.data["name"])
            && ("name" !in n.data || !Truthy(n.data["name"]) ==> t.name == Text(ShortName(n.pluginId)))
            && (n.pluginId != "core/condition" ==>
                  && t.routes.conditional == None
                  && t.routes.fallback == if out == [] then None else Some(out[0].target))
            && (n.pluginId == "core/condition" ==>
                  && t.routes.fallback == None
                  && (Choices(t.routes) == [] ==> t.routes.conditional == None)
                  && Choices(t.routes) == Branch(out, "true") + Branch(out, "false"))
  {
    hide FindEdge, EdgesFrom, ShortName;
  }

  function ExportedPositions(nodes: seq<CanvasNode>): map<string, Position> {
    if nodes == [] then map[]
    else ExportedPositions(nodes[..|nodes| - 1])[nodes[|nodes| - 1].id := nodes[|nodes| - 1].position]
  }

  /** The first ID that no edge leads to, or else the first, or else nothing. */
  function Entry(ids: seq<string>, targets: set<string>): (e: string)
    ensures ids == [] ==> e == ""
    ensures forall i :: 0 <= i < |ids| && ids[i] !in targets && (forall k :: 0 <= k < i ==> ids[k] in targets) ==>
                          e == ids[i]
    ensures ids != [] && (forall i :: 0 <= i < |ids| ==> ids[i] in targets) ==> e == ids[0]
  {
    if ids == [] then "" else if RootsIn(ids, targets) == [] then ids[0] else RootsIn(ids, targets)[0]
  }

  function RootsIn(ids: seq<string>, targets: set<string>): (rs: seq<string>)
    ensures rs == [] <==> forall i :: 0 <= i < |ids| ==> ids[i] in targets
    ensures forall i :: 0 <= i < |ids| && ids[i] !in targets && (forall k :: 0 <= k < i ==> ids[k] in targets) ==>
                          rs != [] && rs[0] == ids[i]
  {
    if ids == [] then []
    else
      var last := ids[|ids| - 1];
      RootsIn(ids[..|ids| - 1], targets) + if last in targets then [] else [last]
  }

  function IdsOfNodes(nodes: seq<CanvasNode>): (ids: seq<string>)
    ensures |ids| == |nodes| && forall i :: 0 <= i < |nodes| ==> ids[i] == nodes[i].id
  {
    if nodes == [] then [] else IdsOfNodes(nodes[..|nodes| - 1]) + [nodes[|nodes| - 1].id]
  }

  function EdgeTargets(edges: seq<CanvasEdge>): set<string> {
    set e | e in edges :: e.target
  }

  function Serialize(workflowId: string, workflowName: string, s: BuilderState): WorkflowDefinition {
    WorkflowDefinition(
      workflowId, workflowName, "1.0.0", Entry(IdsOfNodes(s.nodes), EdgeTargets(s.edges)),
      ExportedTasks(s.nodes, s.edges), Some(ExportedPositions(s.nodes)))
  }

  // ----- the round trip -----

  function IdsOfTasks(tasks: seq<TaskDefinition>): (ids: seq<string>)
    ensures |ids| == |tasks| && forall i :: 0 <= i < |tasks| ==> ids[i] == tasks[i].id
  {
    if tasks == [] then [] else IdsOfTasks(tasks[..|tasks| - 1]) + [tasks[|tasks| - 1].id]
  }

  ghost function AllTargets(tasks: seq<TaskDefinition>): set<string> {
    set t, b | t in tasks && b in Targets(t) :: b
  }

  /** A condition has only true/false routes, any other task only a default route. */
  ghost predicate CanonicalRoutes(t: TaskDefinition) {
    var r := t.routes;
    if t.pluginId == "core/condition" then
      && r.fallback == None
      && (r.conditional.Some? ==>
            var cs := r.conditional.value;
            || (|cs| == 1 && cs[0].outcome in {"true", "false"})
            || (|cs| == 2 && cs[0].outcome == "true" && cs[1].outcome == "false"))
    else
      r.conditional == None && r.fallback != Some("")
  }

  ghost predicate CanonicalTask(t: TaskDefinition) {
    && CanonicalRoutes(t)
    && "name" !in t.config
    && (Truthy(t.name) || t.name == Text(ShortName(t.pluginId)))
  }

  /** All route targets of the tasks with this ID, in order. */
  function GroupTargets(tasks: seq<TaskDefinition>, id: string): seq<string> {
    if tasks == [] then []
    else
      var last := tasks[|tasks| - 1];
      GroupTargets(tasks[..|tasks| - 1], id) + if last.id == id then Targets(last) else []
  }

  function GroupChoices(tasks: seq<TaskDefinition>, id: string): seq<Choice> {
    if tasks == [] then []
    else
      var last := tasks[|tasks| - 1];
      GroupChoices(tasks[..|tasks| - 1], id) + if last.id == id then Choices(last.routes) else []
  }

  /** The first target for an outcome, as a choice. */
  function FirstChoice(cs: seq<Choice>, outcome: string): seq<Choice> {
    if cs == [] then []
    else
      var earlier, last := FirstChoice(cs[..|cs| - 1], outcome), cs[|cs| - 1];
      if earlier != [] then earlier else if last.outcome == outcome then [last] else []
  }

  lemma {:induction false} FirstChoiceIs(cs: seq<Choice>, outcome: string)
    ensures FirstChoice(cs, outcome) == [] <==> forall i :: 0 <= i < |cs| ==> cs[i].outcome != outcome
    ensures FirstChoice(cs, outcome) != [] ==>
              exists i :: && 0 <= i < |cs| && FirstChoice(cs, outcome) == [cs[i]] && cs[i].outcome == outcome
                          && forall k :: 0 <= k < i ==> cs[k].outcome != outcome
  {
    if cs != [] {
      var front := cs[..|cs| - 1];
      FirstChoiceIs(front, outcome);
      assert cs == front + [cs[|cs| - 1]];
    }
  }

  /** What can be written about a task whose ID has these targets and choices: for a
      condition its first true and first false choice, for any other task its first
      target as the default route. */
  ghost predicate Fitting(t: TaskDefinition, targets: seq<string>, choices: seq<Choice>) {
    if t.pluginId == "core/condition" then
      var cs := FirstChoice(choices, "true") + FirstChoice(choices, "false");
      t.routes == Routes(None, if cs == [] then None else Some(cs))
    else
      t.routes == Routes(if targets == [] then None else Some(targets[0]), None)
  }

  ghost predicate FittingTask(t: TaskDefinition, tasks: seq<TaskDefinition>) {
    && Fitting(t, GroupTargets(tasks, t.id), GroupChoices(tasks, t.id))
    && "name" !in t.config
    && (Truthy(t.name) || t.name == Text(ShortName(t.pluginId)))
  }

  ghost predicate Canonical(w: WorkflowDefinition) {
    && w.version == "1.0.0"
    && w.entryTaskId == Entry(IdsOfTasks(w.tasks), AllTargets(w.tasks))
    && w.positions.Some? && w.positions.value.Keys == TaskIds(w.tasks)
    && forall t :: t in w.tasks ==> FittingTask(t, w.tasks)
  }

  lemma {:induction false} EdgesFromAppend(a: seq<CanvasEdge>, b: seq<CanvasEdge>, source: string)
    ensures EdgesFrom(a + b, source) == EdgesFrom(a, source) + EdgesFrom(b, source)
  {
    if b == [] {
      assert a + b == a;
    } else {
      EdgesFromAppend(a, b[..|b| - 1], source);
      assert (a + b)[..|a + b| - 1] == a + b[..|b| - 1];
    }
  }

  lemma {:induction false} AllFrom(edges: seq<CanvasEdge>, source: string, own: string)
    requires forall i :: 0 <= i < |edges| ==> edges[i].source == own
    ensures EdgesFrom(edges, source) == if source == own then edges else []
  {
    if edges != [] {
      AllFrom(edges[..|edges| - 1], source, own);
    }
  }

  lemma OwnEdges(t: TaskDefinition, n: nat)
    ensures forall i :: 0 <= i < |TaskEdges(t, n)| ==> TaskEdges(t, n)[i].source == t.id
  {
  }

  /** The imported edges of a task are those its routes gave rise to. */
  lemma {:induction false} OutgoingOf(tasks: seq<TaskDefinition>, i: nat) returns (n: nat)
    requires UniqueIds(tasks) && i < |tasks|
    ensures EdgesFrom(ImportedEdges(tasks), tasks[i].id) == TaskEdges(tasks[i], n)
  {
    hide TaskEdges, EdgesFrom;
    var m := |tasks| - 1;
    var front := tasks[..m];
    var before := ImportedEdges(front);
    OwnEdges(tasks[m], |before|);
    AllFrom(TaskEdges(tasks[m], |before|), tasks[i].id, tasks[m].id);
    EdgesFromAppend(before, TaskEdges(tasks[m], |before|), tasks[i].id);
    if i < m {
      n := OutgoingOf(front, i);
    } else {
      NoneFrom(front, tasks[m].id);
      n := |before|;
    }
  }

  lemma {:induction false} NoneFrom(tasks: seq<TaskDefinition>, id: string)
    requires forall t :: t in tasks ==> t.id != id
    ensures EdgesFrom(ImportedEdges(tasks), id) == []
  {
    hide TaskEdges;
    if tasks != [] {
      var m := |tasks| - 1;
      var before := ImportedEdges(tasks[..m]);
      NoneFrom(tasks[..m], id);
      OwnEdges(tasks[m], |before|);
      AllFrom(TaskEdges(tasks[m], |before|), id, tasks[m].id);
      EdgesFromAppend(before, TaskEdges(tasks[m], |before|), id);
    }
  }

  /** Both branches of a canonical condition are found again. */
  lemma BranchesBack(t: TaskDefinition, n: nat)
    requires t.pluginId == "core/condition" && CanonicalRoutes(t)
    ensures Branch(TaskEdges(t, n), "true") + Branch(TaskEdges(t, n), "false") == Choices(t.routes)
  {
    hide TaskEdges, Branch, FirstChoice;
    TaskCarries(t, n);
    var cs := Choices(t.routes);
    if cs == [] {
      NoFirst("true");
      NoFirst("false");
    } else if |cs| == 1 {
      OnlyChoice(cs[0]);
      assert cs == [cs[0]];
    } else {
      BothChoices(cs);
    }
  }

  lemma NoFirst(outcome: string)
    ensures FirstChoice([], outcome) == []
  {
  }

  lemma FirstOfOne(c: Choice, outcome: string)
    ensures FirstChoice([c], outcome) == if c.outcome == outcome then [c] else []
  {
    NoFirst(outcome);
    assert [c][..|[c]| - 1] == [];
  }

  lemma OnlyChoice(c: Choice)
    requires c.outcome in {"true", "false"}
    ensures FirstChoice([c], "true") + FirstChoice([c], "false") == [c]
  {
    hide FirstChoice;
    FirstOfOne(c, "true");
    FirstOfOne(c, "false");
  }

  lemma BothChoices(cs: seq<Choice>)
    requires |cs| == 2 && cs[0].outcome == "true" && cs[1].outcome == "false"
    ensures FirstChoice(cs, "true") + FirstChoice(cs, "false") == cs
  {
    assert cs[..1] == [cs[0]];
    FirstOfOne(cs[0], "true");
    FirstOfOne(cs[0], "false");
  }

  lemma RoutesBackIffCanonical(t: TaskDefinition, node: CanvasNode, n: nat)
    requires node.pluginId == t.pluginId
    ensures ExportedRoutes(node, TaskEdges(t, n)) == t.routes <==> CanonicalRoutes(t)
  {
    hide Digits, FindEdge;
    if t.pluginId == "core/condition" {
      if CanonicalRoutes(t) {
        BranchesBack(t, n);
      }
    }
  }

  /** The edges have these targets and, for each outcome, this first choice. */
  ghost predicate Carries(es: seq<CanvasEdge>, targets: seq<string>, choices: seq<Choice>) {
    && |es| == |targets| && (forall i :: 0 <= i < |es| ==> es[i].target == targets[i])
    && forall outcome :: Branch(es, outcome) == FirstChoice(choices, outcome)
  }

  lemma {:induction false} FindInBoth(a: seq<CanvasEdge>, b: seq<CanvasEdge>, outcome: string)
    ensures FindEdge(a + b, outcome) ==
            if FindEdge(a, outcome).Some? then FindEdge(a, outcome) else FindEdge(b, outcome)
  {
    if a == [] {
      assert a + b == b;
    } else {
      assert (a + b)[1..] == a[1..] + b;
      FindInBoth(a[1..], b, outcome);
    }
  }

  lemma {:induction false} FirstOfBoth(a: seq<Choice>, b: seq<Choice>, outcome: string)
    ensures FirstChoice(a + b, outcome) ==
            if FirstChoice(a, outcome) != [] then FirstChoice(a, outcome) else FirstChoice(b, outcome)
  {
    if b == [] {
      assert a + b == a;
    } else {
      assert (a + b)[..|a + b| - 1] == a + b[..|b| - 1];
      FirstOfBoth(a, b[..|b| - 1], outcome);
    }
  }

  lemma BothCarry(
    a: seq<CanvasEdge>, b: seq<CanvasEdge>, ts: seq<string>, us: seq<string>, cs: seq<Choice>, ds: seq<Choice>)
    requires Carries(a, ts, cs) && Carries(b, us, ds)
    ensures Carries(a + b, ts + us, cs + ds)
  {
    hide FindEdge, FirstChoice;
    forall outcome
      ensures Branch(a + b, outcome) == FirstChoice(cs + ds, outcome)
    {
      assert Branch(a, outcome) == FirstChoice(cs, outcome);
      assert Branch(b, outcome) == FirstChoice(ds, outcome);
      FindInBoth(a, b, outcome);
      FirstOfBoth(cs, ds, outcome);
    }
  }

  lemma {:induction false} ChoicesCarry(source: string, cs: seq<Choice>, n: nat)
    ensures Carries(ChoiceEdges(source, cs, n), ChoiceTargets(cs), cs)
  {
    hide EdgeId;
    if cs != [] {
      var front, last := cs[..|cs| - 1], cs[|cs| - 1];
      var e := ImportedEdge(n + |cs| - 1, source, last.target, Some(last.outcome));
      ChoicesCarry(source, front, n);
      OneCarries(e, last);
      BothCarry(ChoiceEdges(source, front, n), [e], ChoiceTargets(front), [last.target], front, [last]);
      assert front + [last] == cs;
    }
  }

  lemma OneCarries(e: CanvasEdge, c: Choice)
    requires e.target == c.target && e.caption == Some(c.outcome) && e.sourceHandle == Some(c.outcome)
    ensures Carries([e], [c.target], [c])
  {
    var es, cs := [e], [c];
    assert es[1..] == [] && cs[..|cs| - 1] == [];
    forall outcome
      ensures Branch(es, outcome) == FirstChoice(cs, outcome)
    {
      assert FindEdge([], outcome) == None && FirstChoice([], outcome) == [];
    }
  }

  lemma DefaultCarries(t: TaskDefinition, n: nat)
    ensures Carries(DefaultEdges(t, n), DefaultTarget(t.routes), [])
  {
    hide EdgeId;
    var es := DefaultEdges(t, n);
    forall outcome
      ensures Branch(es, outcome) == FirstChoice([], outcome)
    {
      assert FindEdge(es, outcome) == None;
    }
  }

  lemma TaskCarries(t: TaskDefinition, n: nat)
    ensures Carries(TaskEdges(t, n), Targets(t), Choices(t.routes))
  {
    hide ChoiceEdges, Carries, DefaultEdges;
    var first := DefaultEdges(t, n);
    DefaultCarries(t, n);
    ChoicesCarry(t.id, Choices(t.routes), n + |first|);
    BothCarry(first, ChoiceEdges(t.id, Choices(t.routes), n + |first|),
              DefaultTarget(t.routes), ChoiceTargets(Choices(t.routes)), [], Choices(t.routes));
    assert [] + Choices(t.routes) == Choices(t.routes);
  }

  /** The imported edges of an ID are those of all tasks with that ID, one after the
      other. */
  lemma {:induction false} GroupCarries(tasks: seq<TaskDefinition>, id: string)
    ensures Carries(EdgesFrom(ImportedEdges(tasks), id), GroupTargets(tasks, id), GroupChoices(tasks, id))
  {
    hide TaskEdges, EdgesFrom, Carries, Targets, Choices;
    if tasks == [] {
      NothingCarries(id);
    } else {
      var front, last := tasks[..|tasks| - 1], tasks[|tasks| - 1];
      var before := ImportedEdges(front);
      var own := TaskEdges(last, |before|);
      GroupCarries(front, id);
      OwnEdges(last, |before|);
      AllFrom(own, id, last.id);
      EdgesFromAppend(before, own, id);
      TaskCarries(last, |before|);
      if last.id == id {
        BothCarry(EdgesFrom(before, id), own, GroupTargets(front, id), Targets(last),
                  GroupChoices(front, id), Choices(last.routes));
      } else {
        assert EdgesFrom(before, id) + [] == EdgesFrom(before, id);
        assert GroupTargets(front, id) + [] == GroupTargets(front, id);
        assert GroupChoices(front, id) + [] == GroupChoices(front, id);
      }
    }
  }

  lemma NothingCarries(id: string)
    ensures Carries(EdgesFrom([], id), [], [])
  {
  }

  /** A task comes back exactly if its routes are what its ID's edges can tell. */
  lemma TaskBackIffFitting(
    t: TaskDefinition, saved: map<string, Position>, edges: seq<CanvasEdge>, targets: seq<string>, choices: seq<Choice>)
    requires Carries(EdgesFrom(edges, t.id), targets, choices)
    ensures ExportedTask(ImportedNode(t, saved), edges) == t <==>
            && Fitting(t, targets, choices) && "name" !in t.config
            && (Truthy(t.name) || t.name == Text(ShortName(t.pluginId)))
  {
    hide EdgesFrom, ShortName, FirstChoice, Branch;
    var node := ImportedNode(t, saved);
    assert node.data - {"name"} == t.config - {"name"};
    assert t.config - {"name"} == t.config <==> "name" !in t.config;
    assert "name" !in t.config ==> node.data["name"] == t.name;
  }

  lemma OneTaskBack(tasks: seq<TaskDefinition>, i: nat, saved: map<string, Position>)
    requires i < |tasks|
    ensures ExportedTask(ImportedNode(tasks[i], saved), ImportedEdges(tasks)) == tasks[i] <==>
            FittingTask(tasks[i], tasks)
  {
    hide ExportedTask, ImportedNode, ImportedEdges, Fitting, Carries;
    var t := tasks[i];
    GroupCarries(tasks, t.id);
    TaskBackIffFitting(t, saved, ImportedEdges(tasks), GroupTargets(tasks, t.id), GroupChoices(tasks, t.id));
  }

  lemma TasksBackIffFitting(w: WorkflowDefinition)
    ensures ExportedTasks(Imported(w).nodes, Imported(w).edges) == w.tasks <==>
            forall t :: t in w.tasks ==> FittingTask(t, w.tasks)
  {
    hide ExportedTask, ImportedNode, ImportedEdges, FittingTask;
    var s := Imported(w);
    var back := ExportedTasks(s.nodes, s.edges);
    forall i | 0 <= i < |w.tasks|
      ensures back[i] == w.tasks[i] <==> FittingTask(w.tasks[i], w.tasks)
    {
      OneTaskBack(w.tasks, i, SavedPositions(w));
    }
    if forall t :: t in w.tasks ==> FittingTask(t, w.tasks) {
      assert forall i :: 0 <= i < |w.tasks| ==> w.tasks[i] in w.tasks;
    }
  }

  /** Where no other task has its ID, fitting is a matter of the task's own shape. */
  lemma FittingIffCanonical(tasks: seq<TaskDefinition>, i: nat)
    requires UniqueIds(tasks) && i < |tasks|
    ensures FittingTask(tasks[i], tasks) <==> CanonicalTask(tasks[i])
  {
    hide Carries, CanonicalRoutes, Fitting, TaskEdges, ImportedEdges, ShortName, ExportedRoutes;
    var t := tasks[i];
    var n := OutgoingOf(tasks, i);
    var node := CanvasNode(t.id, t.pluginId, Position(0, 0), map[]);
    RoutesBackIffCanonical(t, node, n);
    GroupCarries(tasks, t.id);
    RoutesBackIffFitting(t, node, TaskEdges(t, n), GroupTargets(tasks, t.id), GroupChoices(tasks, t.id));
  }

  lemma RoutesBackIffFitting(
    t: TaskDefinition, node: CanvasNode, es: seq<CanvasEdge>, targets: seq<string>, choices: seq<Choice>)
    requires node.pluginId == t.pluginId && Carries(es, targets, choices)
    ensures ExportedRoutes(node, es) == t.routes <==> Fitting(t, targets, choices)
  {
    hide FirstChoice, Branch;
  }

  lemma {:induction false} ImportedTargets(tasks: seq<TaskDefinition>)
    ensures EdgeTargets(ImportedEdges(tasks)) == AllTargets(tasks)
  {
    if tasks != [] {
      var m := |tasks| - 1;
      var before := ImportedEdges(tasks[..m]);
      ImportedTargets(tasks[..m]);
      TaskTargets(tasks[m], |before|);
      JoinTargets(before, TaskEdges(tasks[m], |before|));
      AllTargetsAdds(tasks);
    }
  }

  ghost function TargetSet(t: TaskDefinition): set<string> {
    set b | b in Targets(t)
  }

  lemma AllTargetsAdds(tasks: seq<TaskDefinition>)
    requires tasks != []
    ensures AllTargets(tasks) == AllTargets(tasks[..|tasks| - 1]) + TargetSet(tasks[|tasks| - 1])
  {
    hide Targets;
    assert tasks == tasks[..|tasks| - 1] + [tasks[|tasks| - 1]];
  }

  lemma JoinTargets(a: seq<CanvasEdge>, b: seq<CanvasEdge>)
    ensures EdgeTargets(a + b) == EdgeTargets(a) + EdgeTargets(b)
  {
  }

  lemma TaskTargets(t: TaskDefinition, n: nat)
    ensures EdgeTargets(TaskEdges(t, n)) == TargetSet(t)
  {
    hide Digits;
    var es := TaskEdges(t, n);
    assert |es| == |Targets(t)| && forall i :: 0 <= i < |es| ==> es[i].target == Targets(t)[i];
    forall b | b in Targets(t)
      ensures b in EdgeTargets(es)
    {
      var i :| 0 <= i < |es| && Targets(t)[i] == b;
      assert es[i] in es;
    }
  }

  /** Of several nodes with one ID the last one's position is saved. */
  lemma {:induction false} LastPositionSaved(nodes: seq<CanvasNode>, i: nat)
    requires i < |nodes| && forall k :: i < k < |nodes| ==> nodes[k].id != nodes[i].id
    ensures nodes[i].id in ExportedPositions(nodes) && ExportedPositions(nodes)[nodes[i].id] == nodes[i].position
  {
    if i < |nodes| - 1 {
      LastPositionSaved(nodes[..|nodes| - 1], i);
    }
  }

  lemma {:induction false} PositionsOf(nodes: seq<CanvasNode>)
    ensures ExportedPositions(nodes).Keys == NodeIds(nodes)
    ensures forall id :: id in ExportedPositions(nodes) ==>
                           exists n :: n in nodes && n.id == id && n.position == ExportedPositions(nodes)[id]
  {
    if nodes != [] {
      var front, last := nodes[..|nodes| - 1], nodes[|nodes| - 1];
      PositionsOf(front);
      assert nodes == front + [last];
    }
  }

  lemma ImportedIds(w: WorkflowDefinition)
    ensures NodeIds(Imported(w).nodes) == TaskIds(w.tasks)
  {
    var s := Imported(w);
    forall id | id in NodeIds(s.nodes)
      ensures id in TaskIds(w.tasks)
    {
      var i :| 0 <= i < |s.nodes| && s.nodes[i].id == id;
      assert w.tasks[i] in w.tasks;
    }
    forall id | id in TaskIds(w.tasks)
      ensures id in NodeIds(s.nodes)
    {
      var i :| 0 <= i < |w.tasks| && w.tasks[i].id == id;
      assert s.nodes[i] in s.nodes;
    }
  }

  lemma PositionsBackIffSaved(w: WorkflowDefinition)
    ensures Some(ExportedPositions(Imported(w).nodes)) == w.positions <==>
            w.positions.Some? && w.positions.value.Keys == TaskIds(w.tasks)
  {
    hide ExportedPositions, TaskIds, NodeIds;
    var nodes := Imported(w).nodes;
    var back := ExportedPositions(nodes);
    PositionsOf(nodes);
    ImportedIds(w);
    if w.positions.Some? && w.positions.value.Keys == TaskIds(w.tasks) {
      forall id | id in back
        ensures back[id] == w.positions.value[id]
      {
        var i :| 0 <= i < |nodes| && nodes[i].id == id && nodes[i].position == back[id];
      }
      assert back == w.positions.value;
    }
  }

  lemma SameIds(w: WorkflowDefinition)
    ensures IdsOfNodes(Imported(w).nodes) == IdsOfTasks(w.tasks)
  {
  }

  /** A definition comes back from the canvas as it was exactly if it is canonical. */
  lemma RoundTripIffCanonical(w: WorkflowDefinition)
    ensures Serialize(w.id, w.name, Imported(w)) == w <==> Canonical(w)
  {
    hide ExportedTasks, ExportedPositions, FittingTask, TaskIds, Entry, Imported;
    SameIds(w);
    assert Imported(w).edges == ImportedEdges(w.tasks) by {
      SameEdges(w);
    }
    ImportedTargets(w.tasks);
    TasksBackIffFitting(w);
    PositionsBackIffSaved(w);
  }

  lemma SameEdges(w: WorkflowDefinition)
    ensures Imported(w).edges == ImportedEdges(w.tasks)
  {
  }
}
