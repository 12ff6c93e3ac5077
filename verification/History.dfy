/** Undo and redo over whole histories of commands. */
module History {
  import opened Workflows
  import opened Canvas
  import opened Commands
  import opened CommandLaws
  import Adapter

  const MAX_HISTORY: nat := 50

  /** A command object as a value. */
  datatype Entry = Entry(action: Action, memo: Memo)

  datatype Editor = Editor(state: BuilderState, undoStack: seq<Entry>, redoStack: seq<Entry>)

  datatype Event = Dispatch(action: Action) | Undo | Redo

  function Pushed(stack: seq<Entry>, e: Entry): seq<Entry> {
    if |stack| + 1 > MAX_HISTORY then (stack + [e])[1..] else stack + [e]
  }

  function Dispatched(e: Editor, a: Action): Editor {
    var (s, m) := Executed(a, BLANK, e.state);
    Editor(s, Pushed(e.undoStack, Entry(a, m)), [])
  }

  function UndoneOnce(e: Editor): Editor {
    if e.undoStack == [] then e
    else
      var c := e.undoStack[|e.undoStack| - 1];
      Editor(Undone(c.action, c.memo, e.state), e.undoStack[..|e.undoStack| - 1], e.redoStack + [c])
  }

  function RedoneOnce(e: Editor): Editor {
    if e.redoStack == [] then e
    else
      var c := e.redoStack[|e.redoStack| - 1];
      var (s, m) := Executed(c.action, c.memo, e.state);
      Editor(s, e.undoStack + [Entry(c.action, m)], e.redoStack[..|e.redoStack| - 1])
  }

  function Next(e: Editor, ev: Event): Editor {
    match ev
    case Dispatch(a) => Dispatched(e, a)
    case Undo => UndoneOnce(e)
    case Redo => RedoneOnce(e)
  }

  function After(e: Editor, evs: seq<Event>): Editor {
    if evs == [] then e else Next(After(e, evs[..|evs| - 1]), evs[|evs| - 1])
  }

  function UndoneTimes(e: Editor, k: nat): Editor {
    if k == 0 then e else UndoneOnce(UndoneTimes(e, k - 1))
  }

  function RedoneTimes(e: Editor, k: nat): Editor {
    if k == 0 then e else RedoneOnce(RedoneTimes(e, k - 1))
  }

  // ----- what a canvas shows -----

  ghost function NodeWith(nodes: seq<CanvasNode>, id: string): CanvasNode
    requires id in NodeIds(nodes)
  {
    var n :| n in nodes && n.id == id;
    n
  }

  ghost function EdgeIds(edges: seq<CanvasEdge>): set<string> {
    set e | e in edges :: e.id
  }

  ghost function EdgeWith(edges: seq<CanvasEdge>, id: string): CanvasEdge
    requires id in EdgeIds(edges)
  {
    var e :| e in edges && e.id == id;
    e
  }

  ghost predicate UniqueCanvas(s: BuilderState) {
    UniqueNodeIds(s.nodes) && UniqueEdgeIds(s.edges)
  }

  ghost function Shown(s: BuilderState): View {
    View(map id | id in NodeIds(s.nodes) :: NodeWith(s.nodes, id),
         map id | id in EdgeIds(s.edges) :: EdgeWith(s.edges, id))
  }

  lemma ShowsShown(s: BuilderState)
    requires UniqueCanvas(s)
    ensures Shows(s, Shown(s)) && WellKeyed(Shown(s))
  {
  }

  lemma OneView(s: BuilderState, v: View)
    requires Shows(s, v)
    ensures UniqueCanvas(s) && v == Shown(s) && WellKeyed(v)
  {
    ShowsShown(s);
    assert v.nodes == Shown(s).nodes;
    assert v.edges == Shown(s).edges;
  }

  /** The same nodes and edges, each as often. */
  ghost predicate SameCanvas(s: BuilderState, t: BuilderState) {
    multiset(s.nodes) == multiset(t.nodes) && multiset(s.edges) == multiset(t.edges)
  }

  lemma {:induction false} NodeOnce(nodes: seq<CanvasNode>, n: CanvasNode)
    requires UniqueNodeIds(nodes)
    ensures multiset(nodes)[n] == if n in nodes then 1 else 0
  {
    if nodes != [] {
      var front, last := nodes[..|nodes| - 1], nodes[|nodes| - 1];
      NodeOnce(front, n);
      LastIsNew(nodes);
      assert nodes == front + [last];
    }
  }

  lemma {:induction false} EdgeOnce(edges: seq<CanvasEdge>, e: CanvasEdge)
    requires UniqueEdgeIds(edges)
    ensures multiset(edges)[e] == if e in edges then 1 else 0
  {
    if edges != [] {
      var front, last := edges[..|edges| - 1], edges[|edges| - 1];
      EdgeOnce(front, e);
      LastEdgeIsNew(edges);
      assert edges == front + [last];
    }
  }

  /** Showing the same view is having the same nodes and edges. */
  lemma SameIffSameView(s: BuilderState, t: BuilderState)
    requires UniqueCanvas(s) && UniqueCanvas(t)
    ensures SameCanvas(s, t) <==> Shown(s) == Shown(t)
  {
    ShowsShown(s);
    ShowsShown(t);
    if Shown(s) == Shown(t) {
      forall n: CanvasNode
        ensures multiset(s.nodes)[n] == multiset(t.nodes)[n]
      {
        NodeOnce(s.nodes, n);
        NodeOnce(t.nodes, n);
      }
      forall e: CanvasEdge
        ensures multiset(s.edges)[e] == multiset(t.edges)[e]
      {
        EdgeOnce(s.edges, e);
        EdgeOnce(t.edges, e);
      }
    }
    if SameCanvas(s, t) {
      SameMembers(s, t);
      OneView(t, Shown(s));
    }
  }

  lemma SameMembers(s: BuilderState, t: BuilderState)
    requires SameCanvas(s, t)
    ensures forall n :: n in s.nodes <==> n in t.nodes
    ensures forall e :: e in s.edges <==> e in t.edges
  {
    assert forall n :: n in s.nodes <==> n in multiset(s.nodes);
    assert forall n :: n in t.nodes <==> n in multiset(t.nodes);
    assert forall e :: e in s.edges <==> e in multiset(s.edges);
    assert forall e :: e in t.edges <==> e in multiset(t.edges);
  }

  // ----- the history as a trail of views -----

  /** Command `c` fitted `before`, remembers it, and leads to `after`. */
  ghost predicate Leads(c: Entry, before: View, after: View) {
    && WellKeyed(before) && Fits(c.action, before) && Remembers(c.action, c.memo, before)
    && after == Effect(c.action, before)
  }

  function Length(e: Editor): nat {
    |e.undoStack| + |e.redoStack|
  }

  /** The `i`-th command, oldest first: the undo stack, then the redo stack downwards. */
  function CommandAt(e: Editor, i: nat): Entry
    requires i < Length(e)
  {
    if i < |e.undoStack| then e.undoStack[i] else e.redoStack[Length(e) - 1 - i]
  }

  /** Each command leads from one view to the next, and the canvas shows the view
      after the commands that are not undone. */
  ghost predicate Trail(e: Editor, views: seq<View>) {
    && |views| == Length(e) + 1
    && Shows(e.state, views[|e.undoStack|])
    && forall i :: 0 <= i < Length(e) ==> Leads(CommandAt(e, i), views[i], views[i + 1])
  }

  lemma UndoKeepsTrail(e: Editor, views: seq<View>)
    requires Trail(e, views)
    ensures Trail(UndoneOnce(e), views)
    ensures |UndoneOnce(e).undoStack| == if e.undoStack == [] then 0 else |e.undoStack| - 1
  {
    hide Shows, WellKeyed, Fits, Remembers, Effect, Undone;
    if e.undoStack != [] {
      var n := |e.undoStack| - 1;
      var c := e.undoStack[n];
      var u := UndoneOnce(e);
      assert Leads(CommandAt(e, n), views[n], views[n + 1]);
      UndoShows(c.action, c.memo, e.state, views[n]);
      assert Length(u) == Length(e);
      assert forall i :: 0 <= i < Length(e) ==> CommandAt(u, i) == CommandAt(e, i);
    }
  }

  lemma RedoKeepsTrail(e: Editor, views: seq<View>)
    requires Trail(e, views)
    ensures Trail(RedoneOnce(e), views)
    ensures |RedoneOnce(e).undoStack| == if e.redoStack == [] then |e.undoStack| else |e.undoStack| + 1
    ensures Length(RedoneOnce(e)) == Length(e)
  {
    hide Shows, WellKeyed, Fits, Remembers, Effect, Executed;
    if e.redoStack != [] {
      var n := |e.undoStack|;
      var c := e.redoStack[|e.redoStack| - 1];
      var u := RedoneOnce(e);
      assert Leads(CommandAt(e, n), views[n], views[n + 1]);
      ExecuteShows(c.action, c.memo, e.state, views[n]);
      assert Length(u) == Length(e);
      assert forall i :: 0 <= i < Length(e) && i != n ==> CommandAt(u, i) == CommandAt(e, i);
      assert CommandAt(u, n) == Entry(c.action, Executed(c.action, c.memo, e.state).1);
    }
  }

  /** A new command that fits cuts the future off, and perhaps the oldest view. */
  lemma DispatchKeepsTrail(e: Editor, a: Action, views: seq<View>) returns (next: seq<View>)
    requires Trail(e, views) && Fits(a, Shown(e.state))
    ensures Trail(Dispatched(e, a), next)
  {
    hide Shows, Fits, Remembers, Effect, Executed, WellKeyed, Shown;
    var n := |e.undoStack|;
    var v := views[n];
    OneView(e.state, v);
    ExecuteShows(a, BLANK, e.state, v);
    var u := Dispatched(e, a);
    var all := views[..n + 1] + [Effect(a, v)];
    var c := Entry(a, Executed(a, BLANK, e.state).1);
    var commands := e.undoStack + [c];
    forall i | 0 <= i <= n
      ensures Leads(commands[i], all[i], all[i + 1])
    {
      if i < n {
        assert Leads(CommandAt(e, i), views[i], views[i + 1]);
      }
    }
    var cut := |all| - 1 - |u.undoStack|;
    next := all[cut..];
    assert u.undoStack == commands[cut..];
    forall i | 0 <= i < Length(u)
      ensures Leads(CommandAt(u, i), next[i], next[i + 1])
    {
      assert Leads(commands[cut + i], all[cut + i], all[cut + i + 1]);
    }
  }

  lemma {:induction false} UndoTimesOnTrail(e: Editor, views: seq<View>, k: nat)
    requires Trail(e, views)
    ensures Trail(UndoneTimes(e, k), views)
    ensures |UndoneTimes(e, k).undoStack| == if k <= |e.undoStack| then |e.undoStack| - k else 0
  {
    hide Trail, UndoneOnce;
    if k > 0 {
      UndoTimesOnTrail(e, views, k - 1);
      UndoKeepsTrail(UndoneTimes(e, k - 1), views);
    }
  }

  lemma {:induction false} RedoTimesOnTrail(e: Editor, views: seq<View>, k: nat)
    requires Trail(e, views)
    ensures Trail(RedoneTimes(e, k), views) && Length(RedoneTimes(e, k)) == Length(e)
    ensures |RedoneTimes(e, k).undoStack| ==
            if k <= |e.redoStack| then |e.undoStack| + k else Length(e)
  {
    hide Trail, RedoneOnce;
    if k > 0 {
      RedoTimesOnTrail(e, views, k - 1);
      RedoKeepsTrail(RedoneTimes(e, k - 1), views);
    }
  }

  // ----- the theorems -----

  /** Every dispatched command fits the canvas it is dispatched on. */
  ghost predicate Sound(e: Editor, evs: seq<Event>) {
    evs == [] ||
    (var front, last := evs[..|evs| - 1], evs[|evs| - 1];
     Sound(e, front) && (last.Dispatch? ==> Fits(last.action, Shown(After(e, front).state))))
  }

  /** A store as it is opened: any canvas without repeated IDs, and no history. */
  ghost predicate Opened(e: Editor) {
    UniqueCanvas(e.state) && e.undoStack == [] && e.redoStack == []
  }

  /** An imported definition can be opened. */
  lemma ImportedIsOpened(w: WorkflowDefinition)
    requires UniqueIds(w.tasks)
    ensures Opened(Editor(Adapter.Imported(w), [], []))
  {
    hide Adapter.EdgeId, Adapter.ImportedEdges;
    var edges := Adapter.Imported(w).edges;
    Adapter.EdgesNumbered(w.tasks);
    forall i, k | 0 <= i < k < |edges|
      ensures edges[i].id != edges[k].id
    {
      Adapter.EdgeIdsDiffer(i, k);
    }
  }

  lemma {:induction false} HistoryIsTrail(e: Editor, evs: seq<Event>) returns (views: seq<View>)
    requires Opened(e) && Sound(e, evs)
    ensures Trail(After(e, evs), views)
  {
    hide Fits, Trail, Dispatched, UndoneOnce, RedoneOnce;
    if evs == [] {
      views := [Shown(e.state)];
      StartsTrail(e);
    } else {
      var front, last := evs[..|evs| - 1], evs[|evs| - 1];
      var before := HistoryIsTrail(e, front);
      match last
      case Dispatch(a) => views := DispatchKeepsTrail(After(e, front), a, before);
      case Undo =>
        UndoKeepsTrail(After(e, front), before);
        views := before;
      case Redo =>
        RedoKeepsTrail(After(e, front), before);
        views := before;
    }
  }

  lemma StartsTrail(e: Editor)
    requires Opened(e)
    ensures Trail(e, [Shown(e.state)])
  {
    ShowsShown(e.state);
  }

  /** The stacks never hold more than 50 commands together. */
  lemma {:induction false} HistoryIsBounded(e: Editor, evs: seq<Event>)
    requires Opened(e)
    ensures Length(After(e, evs)) <= 50
  {
    if evs != [] {
      HistoryIsBounded(e, evs[..|evs| - 1]);
    }
  }

  lemma SameView(s: BuilderState, t: BuilderState, v: View)
    requires Shows(s, v) && Shows(t, v)
    ensures SameCanvas(s, t)
  {
    OneView(s, v);
    OneView(t, v);
    SameIffSameView(s, t);
  }

  /** After any history, `k` undos and then `k` redos leave the nodes and edges that
      the redos in excess of the undo stack would have left. */
  lemma UndosThenRedos(e: Editor, evs: seq<Event>, k: nat)
    requires Opened(e) && Sound(e, evs)
    ensures var u := After(e, evs);
            var excess := if k <= |u.undoStack| then 0 else k - |u.undoStack|;
            SameCanvas(RedoneTimes(UndoneTimes(u, k), k).state, RedoneTimes(u, excess).state)
  {
    hide After, Opened, Sound, UndoneTimes, RedoneTimes, SameCanvas, Shows;
    var views := HistoryIsTrail(e, evs);
    var u := After(e, evs);
    var excess := if k <= |u.undoStack| then 0 else k - |u.undoStack|;
    UndoTimesOnTrail(u, views, k);
    RedoTimesOnTrail(UndoneTimes(u, k), views, k);
    RedoTimesOnTrail(u, views, excess);
    var back, direct := RedoneTimes(UndoneTimes(u, k), k), RedoneTimes(u, excess);
    SameView(back.state, direct.state, views[|direct.undoStack|]);
  }

  /** `k` undos and then `k` redos restore the nodes and edges exactly if the redos in
      excess of the undo stack, done right away, would change none. */
  lemma UndosThenRedosRestoreIff(e: Editor, evs: seq<Event>, k: nat)
    requires Opened(e) && Sound(e, evs)
    ensures var u := After(e, evs);
            var excess := if k <= |u.undoStack| then 0 else k - |u.undoStack|;
            SameCanvas(RedoneTimes(UndoneTimes(u, k), k).state, u.state) <==>
            SameCanvas(RedoneTimes(u, excess).state, u.state)
  {
    hide After, Opened, Sound, UndoneTimes, RedoneTimes;
    UndosThenRedos(e, evs, k);
  }

  lemma {:induction false} NothingToRedo(e: Editor, k: nat)
    requires e.redoStack == []
    ensures RedoneTimes(e, k) == e
  {
    if k > 0 {
      NothingToRedo(e, k - 1);
    }
  }

  lemma NoRedo(e: Editor)
    ensures RedoneTimes(e, 0) == e
  {
  }

  lemma SameAsItself(s: BuilderState)
    ensures SameCanvas(s, s)
  {
  }

  /** So they do where no more is undone than there is to undo, and where nothing was
      left to redo. */
  lemma UndosThenRedosRestore(e: Editor, evs: seq<Event>, k: nat)
    requires Opened(e) && Sound(e, evs)
    requires k <= |After(e, evs).undoStack| || After(e, evs).redoStack == []
    ensures var u := After(e, evs);
            SameCanvas(RedoneTimes(UndoneTimes(u, k), k).state, u.state)
  {
    hide After, Opened, Sound, UndoneTimes, RedoneTimes, SameCanvas;
    var u := After(e, evs);
    var excess := if k <= |u.undoStack| then 0 else k - |u.undoStack|;
    UndosThenRedosRestoreIff(e, evs, k);
    if u.redoStack == [] {
      NothingToRedo(u, excess);
    } else {
      NoRedo(u);
    }
    SameAsItself(u.state);
  }

  lemma {:induction false} NoneWithId(nodes: seq<CanvasNode>, ids: set<string>)
    ensures forall n :: n in NodesWithout(nodes, ids) ==> n.id !in ids
  {
    if nodes != [] {
      NoneWithId(nodes[..|nodes| - 1], ids);
    }
  }

  lemma {:induction false} NoEdgeWithId(edges: seq<CanvasEdge>, id: string)
    ensures forall e :: e in EdgesExcept(edges, id) ==> e.id != id
  {
    if edges != [] {
      NoEdgeWithId(edges[..|edges| - 1], id);
    }
  }

  lemma NodeTells(s: BuilderState, t: BuilderState, n: CanvasNode)
    requires n in s.nodes <==> n !in t.nodes
    ensures !SameCanvas(s, t) && !SameCanvas(t, s)
  {
    if SameCanvas(s, t) {
      SameMembers(s, t);
    }
  }

  lemma EdgeTells(s: BuilderState, t: BuilderState, e: CanvasEdge)
    requires e in s.edges <==> e !in t.edges
    ensures !SameCanvas(s, t) && !SameCanvas(t, s)
  {
    if SameCanvas(s, t) {
      SameMembers(s, t);
    }
  }

  /** Where they do not: a node is added and the addition undone.  One more undo does
      nothing, but the redo adds the node back. */
  lemma RedoAddsBack(e: Editor, n: CanvasNode)
    requires Opened(e) && n.id !in NodeIds(e.state.nodes)
    ensures var evs := [Dispatch(AddNode(n)), Undo];
            var u := After(e, evs);
            && Sound(e, evs) && |u.undoStack| == 0
            && !SameCanvas(RedoneTimes(UndoneTimes(u, 1), 1).state, u.state)
  {
    hide SameCanvas, NodesWithout;
    var evs := [Dispatch(AddNode(n)), Undo];
    assert evs[..1] == [Dispatch(AddNode(n))] && evs[..1][..0] == [];
    var d := Dispatched(e, AddNode(n));
    assert After(e, evs[..1]) == d;
    assert Sound(e, evs[..1]);
    var u := UndoneOnce(d);
    assert After(e, evs) == u;
    assert UndoneTimes(u, 0) == u && UndoneTimes(u, 1) == u;
    assert RedoneTimes(u, 0) == u;
    NoneWithId(d.state.nodes, {n.id});
    NodeTells(RedoneOnce(u).state, u.state, n);
  }

  /** A command that does not fit is not undone: some node or edge tells. */
  lemma UnfitIsSeen(a: Action, s: BuilderState)
    requires UniqueCanvas(s) && !Fits(a, Shown(s))
    ensures var (t, m) := Executed(a, BLANK, s);
            !SameCanvas(Undone(a, m, t), s)
  {
    hide Merge, Truthful, NodesWithout, EdgesExcept, UniqueEdgeIds, SameCanvas;
    var v := Shown(s);
    ShowsShown(s);
    var (t, m) := Executed(a, BLANK, s);
    var u := Undone(a, m, t);
    match a
    case AddNode(n) =>
      NoneWithId(t.nodes, {n.id});
      NodeTells(s, u, v.nodes[n.id]);
    case ConnectEdge(e) =>
      NoEdgeWithId(t.edges, e.id);
      EdgeTells(s, u, v.edges[e.id]);
    case MoveNode(id, p, q) =>
      OnlyOne(s.nodes, v.nodes, id);
      var k :| 0 <= k < |s.nodes| && s.nodes[k] == v.nodes[id];
      assert u.nodes[k] == s.nodes[k].(position := q);
      NodeTells(s, u, u.nodes[k]);
    case UpdateProperty(id, ps, oldPs) =>
      OnlyOne(s.nodes, v.nodes, id);
      var k :| 0 <= k < |s.nodes| && s.nodes[k] == v.nodes[id];
      MergeBack(v.nodes[id].data, ps, oldPs);
      assert u.nodes[k] == s.nodes[k].(data := Merge(Merge(s.nodes[k].data, ps), oldPs));
      NodeTells(s, u, u.nodes[k]);
    case _ =>
  }

  /** A command is undone to the nodes and edges from before exactly if it fitted. */
  lemma UndoRestoresIffFits(a: Action, s: BuilderState)
    requires UniqueCanvas(s)
    ensures var (t, m) := Executed(a, BLANK, s);
            SameCanvas(Undone(a, m, t), s) <==> Fits(a, Shown(s))
  {
    ShowsShown(s);
    var v := Shown(s);
    var (t, m) := Executed(a, BLANK, s);
    if Fits(a, v) {
      ExecuteShows(a, BLANK, s, v);
      UndoShows(a, m, t, v);
      SameView(Undone(a, m, t), s, v);
    } else {
      UnfitIsSeen(a, s);
    }
  }
}
