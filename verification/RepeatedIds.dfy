/** What a definition file with repeated task IDs does to the auto-layout. */
module RepeatedIds {
  import opened Wrappers
  import opened Graphs
  import opened Workflows
  import opened Canvas
  import opened Adapter
  import opened Kahn
  import opened Layout

  function Task(id: string, fallback: Option<string>): TaskDefinition {
    TaskDefinition(id, "core/delay", Text(id), map[], Routes(fallback, None))
  }

  function Definition(tasks: seq<TaskDefinition>): WorkflowDefinition {
    WorkflowDefinition("w", "w", "1.0.0", "a", tasks, None)
  }

  /** A task that occurs twice leads to one that leads to itself. */
  const LOOPING := [Task("a", Some("b")), Task("a", None), Task("b", Some("b"))]

  /** Nodes a, a, b and edges from a to b and from b to b. */
  ghost predicate Endless(s: BuilderState) {
    && |s.nodes| == 3 && s.nodes[0].id == "a" && s.nodes[1].id == "a" && s.nodes[2].id == "b"
    && |s.edges| == 2 && s.edges[0].source == "a" && s.edges[0].target == "b"
    && s.edges[1].source == "b" && s.edges[1].target == "b"
  }

  // ----- short sequences -----

  lemma TargetsOfTwo(es: seq<CanvasEdge>, a: string)
    requires |es| == 2
    ensures TargetsFrom(es, a) ==
            (if es[0].source == a then [es[0].target] else []) + if es[1].source == a then [es[1].target] else []
  {
    assert es[..1][..0] == [];
    assert TargetsFrom(es[..1], a) == if es[0].source == a then [es[0].target] else [];
  }

  lemma DegreesOfTwo(ids: set<string>, es: seq<CanvasEdge>, b: string)
    requires |es| == 2 && es[0].target == b && es[1].target == b
    ensures Degree(InDegrees(ids, es), b) == 2
    ensures forall n :: n != b ==> Degree(InDegrees(ids, es), n) == 0
  {
    assert es[..1][..0] == [];
    var deg := InDegrees(ids, []);
    assert forall n :: Degree(deg, n) == 0;
    assert InDegrees(ids, es[..1]) == deg[b := 1];
  }

  lemma FreeOfTwo(ns: seq<CanvasNode>, deg: Degrees)
    requires |ns| == 2 && Degree(deg, ns[0].id) == 0 && Degree(deg, ns[1].id) == 0
    ensures Free(ns, deg) == [ns[0].id, ns[1].id]
  {
    assert ns[..1][..0] == [];
    assert Free(ns[..1], deg) == [ns[0].id];
  }

  lemma TakenOffOne(n: string, deg: Degrees)
    ensures var d := if Degree(deg, n) == 0 then 0 else Degree(deg, n) - 1;
            TakenOff([n], deg) == (deg[n := d], if d == 0 then [n] else [])
  {
    var s := [n];
    assert s[..|s| - 1] == [] && [] + s == s;
    assert TakenOff([], deg) == (deg, []);
  }

  lemma LayerOfTwo(g: Graph, queue: seq<string>, deg: Degrees)
    requires |queue| == 2
    ensures var (d, one) := TakenOff(Next(g, queue[0]), deg);
            var (d', two) := TakenOff(Next(g, queue[1]), d);
            LayerOff(g, queue, deg) == (d', one + two)
  {
    hide TakenOff;
    LayerOfOne(g, queue[..1], deg);
  }

  lemma LayerOfOne(g: Graph, queue: seq<string>, deg: Degrees)
    requires |queue| == 1
    ensures LayerOff(g, queue, deg) == TakenOff(Next(g, queue[0]), deg)
  {
    hide TakenOff;
    assert queue[..0] == [];
    assert LayerOff(g, [], deg) == (deg, []);
    assert [] + TakenOff(Next(g, queue[0]), deg).1 == TakenOff(Next(g, queue[0]), deg).1;
  }

  // ----- the loop that does not end -----

  lemma EndlessGraph(s: BuilderState)
    requires Endless(s)
    ensures Next(CanvasGraph(s), "a") == ["b"] && Next(CanvasGraph(s), "b") == ["b"]
  {
    hide TargetsFrom;
    TargetsOfTwo(s.edges, "a");
    TargetsOfTwo(s.edges, "b");
    assert s.nodes[0] in s.nodes && s.nodes[2] in s.nodes;
  }

  lemma EndlessStart(s: BuilderState)
    requires Endless(s)
    ensures Rounds(s, 0).queue == ["a", "a"] && Degree(Rounds(s, 0).deg, "b") == 2
  {
    hide InDegrees, NodeIds, Degree;
    var deg := InDegrees(NodeIds(s.nodes), s.edges);
    DegreesOfTwo(NodeIds(s.nodes), s.edges, "b");
    FreeOfTwo(s.nodes[..2], deg);
  }

  /** The two `a` take two edges off `b`, though they have one between them. */
  lemma FirstRound(s: BuilderState)
    requires Endless(s)
    ensures Rounds(s, 1).queue == ["b"] && Degree(Rounds(s, 1).deg, "b") == 0
  {
    hide CanvasGraph, Start, TakenOff, LayerOff, Next;
    EndlessGraph(s);
    EndlessStart(s);
    var g, deg := CanvasGraph(s), Rounds(s, 0).deg;
    TakenOffOne("b", deg);
    TakenOffOne("b", deg["b" := 1]);
    LayerOfTwo(g, ["a", "a"], deg);
  }

  /** From then on `b` is queued, and taking off its loop queues it again. */
  lemma {:induction false} AlwaysQueued(s: BuilderState, k: nat)
    requires Endless(s) && k >= 1
    ensures Rounds(s, k).queue == ["b"] && Degree(Rounds(s, k).deg, "b") == 0
  {
    hide CanvasGraph, Start, TakenOff, LayerOff, Next, Endless;
    if k == 1 {
      FirstRound(s);
    } else {
      AlwaysQueued(s, k - 1);
      EndlessGraph(s);
      TakenOffOne("b", Rounds(s, k - 1).deg);
      LayerOfOne(CanvasGraph(s), ["b"], Rounds(s, k - 1).deg);
    }
  }

  /** Laying out this definition never ends, although its edges join nodes. */
  lemma RepeatedIdNeverEnds()
    ensures ValidEdges(Imported(Definition(LOOPING)))
    ensures forall k: nat :: k >= 1 ==> Rounds(Imported(Definition(LOOPING)), k).queue == ["b"]
    ensures !LoopEnds(Imported(Definition(LOOPING)))
  {
    hide Rounds, Imported;
    var s := Imported(Definition(LOOPING));
    LoopingIsEndless();
    assert s.nodes[0] in s.nodes && s.nodes[2] in s.nodes;
    forall k: nat
      ensures Rounds(s, k).queue == if k == 0 then ["a", "a"] else ["b"]
    {
      EndlessStart(s);
      if k >= 1 {
        AlwaysQueued(s, k);
      }
    }
  }

  lemma LoopingIsEndless()
    ensures Endless(Imported(Definition(LOOPING)))
  {
    hide Digits;
    var tasks := LOOPING;
    assert tasks[..2][..1] == tasks[..1] && tasks[..1][..0] == [];
    OneRoute(tasks[0], 0);
    OneRoute(tasks[2], 1);
    hide TaskEdges;
    assert ImportedEdges(tasks[..1]) == TaskEdges(tasks[0], 0);
    assert TaskEdges(tasks[1], 1) == [] by {
      NoRoute(tasks[1], 1);
    }
    assert ImportedEdges(tasks[..2]) == TaskEdges(tasks[0], 0);
  }

  lemma OneRoute(t: TaskDefinition, n: nat)
    requires t.routes.conditional == None && t.routes.fallback.Some? && t.routes.fallback.value != ""
    ensures TaskEdges(t, n) == [ImportedEdge(n, t.id, t.routes.fallback.value, None)]
  {
  }

  lemma NoRoute(t: TaskDefinition, n: nat)
    requires t.routes == Routes(None, None)
    ensures TaskEdges(t, n) == []
  {
  }

  // ----- the row that is not centred -----

  /** Two nodes called `a`, no edge. */
  ghost predicate Twins(s: BuilderState) {
    |s.nodes| == 2 && s.nodes[0].id == "a" && s.nodes[1].id == "a" && s.edges == []
  }

  lemma TwinsRow(s: BuilderState, k: nat)
    requires Twins(s) && Rounds(s, k).queue == []
    ensures Rounds(s, k).layers == [["a", "a"]]
  {
    TwinsStart(s);
    TwinsRound(s);
    hide Rounds, Start;
    assert k != 0;
    StaysEmpty(s, 1, k);
  }

  lemma TwinsStart(s: BuilderState)
    requires Twins(s)
    ensures Rounds(s, 0).queue == ["a", "a"] && Rounds(s, 0).layers == []
  {
    hide NodeIds;
    FreeOfTwo(s.nodes, InDegrees(NodeIds(s.nodes), []));
  }

  lemma TwinsRound(s: BuilderState)
    requires Twins(s)
    ensures Rounds(s, 1).queue == [] && Rounds(s, 1).layers == [["a", "a"]]
  {
    hide Start, LayerOff;
    TwinsStart(s);
    LayerOfTwo(CanvasGraph(s), ["a", "a"], Rounds(s, 0).deg);
  }

  lemma TwinsRows(s: BuilderState, rows: seq<seq<string>>)
    requires Twins(s) && DrawnRows(s, rows)
    ensures rows == [["a", "a"]]
  {
    hide Rounds, Flat, Members, Unplaced;
    var k: nat :| && Rounds(s, k).queue == []
                  && rows == Rounds(s, k).layers + LastRow(Unplaced(s.nodes, Members(Flat(Rounds(s, k).layers))));
    TwinsRow(s, k);
    NobodyLeft(s.nodes);
  }

  lemma NobodyLeft(nodes: seq<CanvasNode>)
    requires |nodes| == 2 && nodes[0].id == "a" && nodes[1].id == "a"
    ensures Unplaced(nodes, Members(Flat([["a", "a"]]))) == []
  {
    var rows := [["a", "a"]];
    assert rows[..|rows| - 1] == [] && Flat([]) + ["a", "a"] == ["a", "a"];
    assert Flat(rows) == ["a", "a"] && Flat(rows)[0] in Members(Flat(rows));
    assert nodes[..1][..0] == [];
    assert Unplaced(nodes[..1], Members(Flat(rows))) == [];
  }

  /** Both nodes go to the second of two places, and the first stays empty. */
  lemma TwinsShareAPlace(s: BuilderState, rows: seq<seq<string>>, out: BuilderState)
    requires Twins(s) && DrawnRows(s, rows) && LaidOut(s, out, rows)
    ensures out.nodes[0].position == Position(300, 0) && out.nodes[1].position == Position(300, 0)
    ensures forall w :: !Centred(out.nodes, w)
  {
    hide DrawnRows, HasSlot;
    TwinsRows(s, rows);
    AtSecondPlace(out.nodes[0].position);
    AtSecondPlace(out.nodes[1].position);
  }

  lemma AtSecondPlace(at: Position)
    requires HasSlot([["a", "a"]], "a", at)
    ensures at == Position(300, 0)
  {
    hide Slot, MaxWidth;
    var rows := [["a", "a"]];
    var r, c :| LastAt(rows, "a", r, c) && at == Slot(MaxWidth(rows), |rows[r]|, r, c);
    assert rows[0][1] == "a" && c == 1;
    SlotAt(MaxWidth(rows), 2, 0, 1);
    assert MaxWidth(rows) == 2 by {
      assert exists r :: 0 <= r < |rows| && |rows[r]| == MaxWidth(rows);
    }
  }
}
