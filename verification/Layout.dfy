/** The auto-layout: rows from Kahn's layers, and positions from rows. */
module Layout {
  import opened Graphs
  import opened Workflows
  import opened Canvas
  import opened Kahn
  import opened Layering
  import opened Depths

  const NODE_WIDTH: nat := 180
  const NODE_HEIGHT: nat := 60
  const HORIZONTAL_GAP: nat := 80
  const VERTICAL_GAP: nat := 100

  // ----- positions -----

  /** Math.max(...layers.map(l => l.length)) */
  function MaxWidth(rows: seq<seq<string>>): (w: nat)
    ensures forall r :: 0 <= r < |rows| ==> |rows[r]| <= w
    ensures rows != [] ==> exists r :: 0 <= r < |rows| && |rows[r]| == w
  {
    if rows == [] then 0
    else
      var rest, last := MaxWidth(rows[..|rows| - 1]), rows[|rows| - 1];
      assert forall r :: 0 <= r < |rows| - 1 ==> rows[..|rows| - 1][r] == rows[r];
      if |rows| == 1 || |last| > rest then |last| else rest
  }

  function Slot(maxWidth: nat, width: nat, row: nat, col: nat): Position {
    var totalWidth := width * NODE_WIDTH + (width - 1) * HORIZONTAL_GAP;
    var startX := (maxWidth * (NODE_WIDTH + HORIZONTAL_GAP) - totalWidth) / 2;
    Position(startX + col * (NODE_WIDTH + HORIZONTAL_GAP), row * (NODE_HEIGHT + VERTICAL_GAP))
  }

  /** The halving is exact. */
  lemma SlotAt(maxWidth: nat, width: nat, row: nat, col: nat)
    ensures Slot(maxWidth, width, row, col) ==
            Position(130 * maxWidth - 130 * width + 40 + 260 * col, 160 * row)
  {
  }

  predicate Apart(p: Position, q: Position) {
    || p.x + NODE_WIDTH <= q.x || q.x + NODE_WIDTH <= p.x
    || p.y + NODE_HEIGHT <= q.y || q.y + NODE_HEIGHT <= p.y
  }

  /** Not again before `end`. */
  ghost predicate LastIn(row: seq<string>, c: nat, end: nat)
    requires c < end <= |row|
  {
    forall d :: c < d < end ==> row[d] != row[c]
  }

  /** The last place of `n`. */
  ghost predicate LastAt(rows: seq<seq<string>>, n: string, r: int, c: int) {
    && 0 <= r < |rows| && 0 <= c < |rows[r]| && rows[r][c] == n && LastIn(rows[r], c, |rows[r]|)
    && forall q :: r < q < |rows| ==> n !in rows[q]
  }

  lemma {:induction false} LastInRow(row: seq<string>, n: string) returns (c: nat)
    requires n in row
    ensures c < |row| && row[c] == n && LastIn(row, c, |row|)
  {
    if row[|row| - 1] == n {
      c := |row| - 1;
    } else {
      c := LastInRow(row[..|row| - 1], n);
    }
  }

  /** Whatever is listed has a last place. */
  lemma {:induction false} LastPlace(rows: seq<seq<string>>, n: string) returns (r: nat, c: nat)
    requires n in Flat(rows)
    ensures LastAt(rows, n, r, c)
  {
    var front, last := rows[..|rows| - 1], rows[|rows| - 1];
    if n in last {
      r := |rows| - 1;
      c := LastInRow(last, n);
    } else {
      r, c := LastPlace(front, n);
      forall q | r < q < |rows|
        ensures n !in rows[q]
      {
        assert q < |front| ==> rows[q] == front[q];
      }
    }
  }

  /** Each listed ID has the position of its last place in the rows. */
  ghost predicate Placed(positions: map<string, Position>, rows: seq<seq<string>>) {
    forall n, r, c :: LastAt(rows, n, r, c) ==>
                        n in positions && positions[n] == Slot(MaxWidth(rows), |rows[r]|, r, c)
  }

  method PlaceRow(positions: map<string, Position>, rows: seq<seq<string>>, row: nat)
    returns (placed: map<string, Position>)
    requires row < |rows|
    ensures forall n :: n in placed <==> n in positions || n in rows[row]
    ensures forall n :: n in positions && n !in rows[row] ==> placed[n] == positions[n]
    ensures forall c :: 0 <= c < |rows[row]| && LastIn(rows[row], c, |rows[row]|) ==>
                          placed[rows[row][c]] == Slot(MaxWidth(rows), |rows[row]|, row, c)
  {
    hide Slot, MaxWidth, LastIn;
    var layer := rows[row];
    placed := positions;
    var col := 0;
    while col < |layer|
      invariant col <= |layer|
      invariant forall n :: n in placed <==> n in positions || n in layer[..col]
      invariant forall n :: n in positions && n !in layer ==> placed[n] == positions[n]
      invariant forall c :: 0 <= c < col && LastIn(layer, c, col) ==>
                              placed[layer[c]] == Slot(MaxWidth(rows), |layer|, row, c)
    {
      placed := placed[layer[col] := Slot(MaxWidth(rows), |layer|, row, col)];
      forall c | 0 <= c < col && LastIn(layer, c, col + 1)
        ensures LastIn(layer, c, col) && layer[c] != layer[col]
      {
        OneFurther(layer, c, col);
      }
      col := col + 1;
    }
  }

  lemma OneFurther(row: seq<string>, c: nat, end: nat)
    requires c < end < |row| && LastIn(row, c, end + 1)
    ensures LastIn(row, c, end) && row[c] != row[end]
  {
  }

  /** Last among the first `k` rows. */
  ghost predicate LastBefore(rows: seq<seq<string>>, k: nat, r: int, c: int) {
    && 0 <= r < k <= |rows| && 0 <= c < |rows[r]| && LastIn(rows[r], c, |rows[r]|)
    && forall q :: r < q < k ==> rows[r][c] !in rows[q]
  }

  method PlaceRows(rows: seq<seq<string>>) returns (positions: map<string, Position>)
    ensures Placed(positions, rows)
  {
    hide Slot, MaxWidth, LastIn;
    positions := map[];
    var row := 0;
    while row < |rows|
      invariant row <= |rows|
      invariant forall r, c :: LastBefore(rows, row, r, c) ==>
                                 && rows[r][c] in positions
                                 && positions[rows[r][c]] == Slot(MaxWidth(rows), |rows[r]|, r, c)
    {
      positions := PlaceRow(positions, rows, row);
      assert forall r, c :: LastBefore(rows, row + 1, r, c) && r < row ==> LastBefore(rows, row, r, c);
      row := row + 1;
    }
    assert forall n, r, c :: LastAt(rows, n, r, c) ==> LastBefore(rows, |rows|, r, c);
  }

  /** No ID stands twice in a row or in two rows. */
  lemma {:induction false} RowsDistinct(rows: seq<seq<string>>, k: nat)
    requires Distinct(Flat(rows)) && k < |rows|
    ensures Distinct(rows[k])
    ensures forall r, c :: 0 <= r < k && 0 <= c < |rows[r]| ==> rows[r][c] !in rows[k]
  {
    var front, last := rows[..|rows| - 1], rows[|rows| - 1];
    DistinctParts(Flat(front), last);
    if k < |rows| - 1 {
      RowsDistinct(front, k);
      assert forall r :: 0 <= r < k ==> front[r] == rows[r];
    } else {
      forall r, c | 0 <= r < k && 0 <= c < |rows[r]|
        ensures rows[r][c] !in rows[k]
      {
        assert front[r] == rows[r];
        InFlat(front, r, rows[r][c]);
      }
    }
  }

  // ----- the layout -----

  /** The nodes whose ID is in no layer, in their order. */
  function Unplaced(nodes: seq<CanvasNode>, placed: set<string>): (u: seq<string>)
    ensures forall n :: n in u <==> n in NodeIds(nodes) && n !in placed
    ensures UniqueNodeIds(nodes) ==> Distinct(u)
  {
    if nodes == [] then []
    else
      var front, last := nodes[..|nodes| - 1], nodes[|nodes| - 1];
      assert nodes == front + [last];
      Unplaced(front, placed) + if last.id !in placed then [last.id] else []
  }

  /** In the order of the nodes, once for each that is in no layer. */
  lemma {:induction false} UnplacedInOrder(a: seq<CanvasNode>, b: seq<CanvasNode>, placed: set<string>)
    ensures Unplaced(a + b, placed) == Unplaced(a, placed) + Unplaced(b, placed)
    ensures |a| == 1 ==> Unplaced(a, placed) == if a[0].id in placed then [] else [a[0].id]
  {
    hide Unplaced, NodeIds, UniqueNodeIds, Distinct;
    if b == [] {
      assert a + b == a;
      NoneUnplaced(placed);
    } else {
      var front, last := b[..|b| - 1], b[|b| - 1];
      UnplacedInOrder(a, front, placed);
      LastUnplaced(front, last, placed);
      LastUnplaced(a + front, last, placed);
      assert b == front + [last] && a + b == a + front + [last];
    }
    if |a| == 1 {
      NoneUnplaced(placed);
      LastUnplaced([], a[0], placed);
      assert a == [] + [a[0]];
    }
  }

  lemma NoneUnplaced(placed: set<string>)
    ensures Unplaced([], placed) == []
  {
  }

  lemma LastUnplaced(front: seq<CanvasNode>, last: CanvasNode, placed: set<string>)
    ensures Unplaced(front + [last], placed) == Unplaced(front, placed) + if last.id in placed then [] else [last.id]
  {
    assert (front + [last])[..|front|] == front;
  }

  /** The rows that are drawn: the layers at the end of the loop, and a row for the
      nodes in none of them if there are any. */
  ghost predicate DrawnRows(s: BuilderState, rows: seq<seq<string>>) {
    exists k: nat ::
      && Rounds(s, k).queue == []
      && rows == Rounds(s, k).layers + LastRow(Unplaced(s.nodes, Members(Flat(Rounds(s, k).layers))))
  }

  function LastRow(unplaced: seq<string>): seq<seq<string>> {
    if unplaced == [] then [] else [unplaced]
  }

  /** The rows that are drawn, and the nodes that go to an extra last row. */
  method Rows(s: BuilderState) returns (rows: seq<seq<string>>, unplaced: seq<string>)
    requires LoopEnds(s)
    ensures forall n :: n in NodeIds(s.nodes) ==> n in Flat(rows)
    ensures ValidEdges(s) ==> forall n :: n in Flat(rows) ==> n in NodeIds(s.nodes)
    ensures ValidEdges(s) ==> (unplaced == [] <==> !Cyclic(CanvasGraph(s)))
    ensures UniqueNodeIds(s.nodes) ==> Distinct(Flat(rows))
    ensures unplaced == [] ==> exists k: nat :: Rounds(s, k).queue == [] && Rounds(s, k).layers == rows
    ensures DrawnRows(s, rows)
  {
    hide Flat, CanvasGraph, Cyclic, NodeIds, Distinct, ValidEdges, UniqueNodeIds, Rounds, LoopEnds;
    rows := Layers(s);
    ghost var layers := rows;
    ghost var k: nat :| Rounds(s, k).queue == [] && Rounds(s, k).layers == rows;
    unplaced := Unplaced(s.nodes, set n | n in Flat(rows));
    assert (set n | n in Flat(rows)) == Members(Flat(layers));
    MembersOf(Flat(rows));
    if ValidEdges(s) {
      AllPlacedIffAcyclic(s, k);
      forall n | n in Flat(rows)
        ensures n in NodeIds(s.nodes)
      {
        OnlyNodesPlaced(s, k, n);
      }
    }
    if UniqueNodeIds(s.nodes) {
      EndsIfDistinct(s);
      LayersDistinct(s, k);
    }
    if unplaced != [] {
      assert unplaced[0] in unplaced;
      if UniqueNodeIds(s.nodes) {
        DistinctUnion(Flat(rows), unplaced);
      }
      FlatGrows(rows, unplaced);
      rows := rows + [unplaced];
    }
    assert rows == layers + LastRow(unplaced);
  }

  lemma LayersDistinct(s: BuilderState, k: nat)
    requires Distinct(Start(s).queue) && Rounds(s, k).queue == []
    ensures Distinct(Flat(Rounds(s, k).layers))
  {
    hide Rounds, Start, Distinct, NodeIds, Flat, Ready, Complete;
    LayersAreOrdered(s, k);
  }

  ghost predicate HasSlot(rows: seq<seq<string>>, n: string, at: Position) {
    exists r, c :: LastAt(rows, n, r, c) && at == Slot(MaxWidth(rows), |rows[r]|, r, c)
  }

  /** `out` is `s` with every node at its place in the rows. */
  ghost predicate LaidOut(s: BuilderState, out: BuilderState, rows: seq<seq<string>>) {
    && |out.nodes| == |s.nodes| && out == s.(nodes := out.nodes)
    && forall i :: 0 <= i < |s.nodes| ==>
                     && out.nodes[i] == s.nodes[i].(position := out.nodes[i].position)
                     && HasSlot(rows, s.nodes[i].id, out.nodes[i].position)
  }

  method ApplyPositions(s: BuilderState, positions: map<string, Position>, rows: seq<seq<string>>)
    returns (out: BuilderState)
    requires Placed(positions, rows) && forall n :: n in NodeIds(s.nodes) ==> n in Flat(rows)
    ensures LaidOut(s, out, rows)
  {
    hide Slot, MaxWidth, Flat;
    var nodes: seq<CanvasNode> := [];
    var i := 0;
    while i < |s.nodes|
      invariant i <= |s.nodes| && |nodes| == i
      invariant forall k :: 0 <= k < i ==>
                              && nodes[k] == s.nodes[k].(position := nodes[k].position)
                              && HasSlot(rows, s.nodes[k].id, nodes[k].position)
    {
      var n := s.nodes[i];
      ghost var r, c := LastPlace(rows, n.id);
      nodes := nodes + [n.(position := if n.id in positions then positions[n.id] else n.position)];
      assert HasSlot(rows, n.id, nodes[i].position);
      i := i + 1;
    }
    out := s.(nodes := nodes);
  }

  // ----- what a laid-out canvas looks like -----

  ghost predicate NoOverlap(nodes: seq<CanvasNode>) {
    forall i, k :: 0 <= i < k < |nodes| ==> Apart(nodes[i].position, nodes[k].position)
  }

  /** Some node stands mirrored in the same row of a frame `w` wide. */
  ghost predicate HasMirror(nodes: seq<CanvasNode>, p: Position, w: int) {
    exists k :: 0 <= k < |nodes| && nodes[k].position == Position(w - NODE_WIDTH - p.x, p.y)
  }

  /** All rows lie inside one frame, half a gap from its sides. */
  ghost predicate Framed(nodes: seq<CanvasNode>, w: int) {
    forall i :: 0 <= i < |nodes| ==>
                  && HORIZONTAL_GAP <= 2 * nodes[i].position.x
                  && 2 * (nodes[i].position.x + NODE_WIDTH) <= 2 * w - HORIZONTAL_GAP
  }

  /** Every row is centred in the frame, and the widest one fills it. */
  ghost predicate Centred(nodes: seq<CanvasNode>, w: int) {
    && (forall i :: 0 <= i < |nodes| ==> HasMirror(nodes, nodes[i].position, w))
    && (nodes != [] ==> exists i :: 0 <= i < |nodes| && 2 * nodes[i].position.x == HORIZONTAL_GAP)
  }

  /** The row of a node is its depth. */
  ghost predicate AtDepth(g: Graph, n: CanvasNode) {
    exists d: nat :: IsDepth(g, n.id, d) && n.position.y == d * (NODE_HEIGHT + VERTICAL_GAP)
  }

  ghost predicate RowsAreDepths(s: BuilderState, out: BuilderState) {
    forall i :: 0 <= i < |out.nodes| ==> AtDepth(CanvasGraph(s), out.nodes[i])
  }

  ghost predicate EdgesPointDown(out: BuilderState) {
    forall e, i, k ::
      e in out.edges && 0 <= i < |out.nodes| && 0 <= k < |out.nodes| &&
      e.source == out.nodes[i].id && e.target == out.nodes[k].id ==>
        out.nodes[i].position.y + NODE_HEIGHT + VERTICAL_GAP <= out.nodes[k].position.y
  }

  /** Boxes overlap exactly where an ID is repeated: its nodes share one place. */
  lemma ApartIffUnique(s: BuilderState, out: BuilderState, rows: seq<seq<string>>)
    requires LaidOut(s, out, rows)
    ensures NoOverlap(out.nodes) <==> UniqueNodeIds(s.nodes)
  {
    hide Slot, MaxWidth;
    forall i, k | 0 <= i < k < |out.nodes|
      ensures Apart(out.nodes[i].position, out.nodes[k].position) <==> s.nodes[i].id != s.nodes[k].id
    {
      TwoNodes(s, out, rows, i, k);
    }
  }

  lemma TwoNodes(s: BuilderState, out: BuilderState, rows: seq<seq<string>>, i: nat, k: nat)
    requires LaidOut(s, out, rows) && i < k < |out.nodes|
    ensures Apart(out.nodes[i].position, out.nodes[k].position) <==> s.nodes[i].id != s.nodes[k].id
  {
    hide Slot, MaxWidth;
    assert HasSlot(rows, s.nodes[i].id, out.nodes[i].position) && HasSlot(rows, s.nodes[k].id, out.nodes[k].position);
    var r, c :| LastAt(rows, s.nodes[i].id, r, c) && out.nodes[i].position == Slot(MaxWidth(rows), |rows[r]|, r, c);
    var q, d :| LastAt(rows, s.nodes[k].id, q, d) && out.nodes[k].position == Slot(MaxWidth(rows), |rows[q]|, q, d);
    SlotAt(MaxWidth(rows), |rows[r]|, r, c);
    SlotAt(MaxWidth(rows), |rows[q]|, q, d);
    if s.nodes[i].id == s.nodes[k].id {
      OneLastPlace(rows, s.nodes[i].id, r, c, q, d);
    }
  }

  lemma OneLastPlace(rows: seq<seq<string>>, n: string, r: int, c: int, q: int, d: int)
    requires LastAt(rows, n, r, c) && LastAt(rows, n, q, d)
    ensures r == q && c == d
  {
  }

  lemma SlotsFramed(s: BuilderState, out: BuilderState, rows: seq<seq<string>>)
    requires LaidOut(s, out, rows)
    ensures Framed(out.nodes, 260 * MaxWidth(rows))
  {
    hide Slot;
    forall i | 0 <= i < |out.nodes|
      ensures 40 <= out.nodes[i].position.x <= 260 * MaxWidth(rows) - 220
    {
      assert HasSlot(rows, s.nodes[i].id, out.nodes[i].position);
      var r, c :| LastAt(rows, s.nodes[i].id, r, c) && out.nodes[i].position == Slot(MaxWidth(rows), |rows[r]|, r, c);
      SlotAt(MaxWidth(rows), |rows[r]|, r, c);
    }
  }

  /** Where a listed ID is drawn. */
  lemma DrawnAt(s: BuilderState, out: BuilderState, rows: seq<seq<string>>, r: nat, c: nat) returns (i: nat)
    requires LaidOut(s, out, rows) && Distinct(Flat(rows))
    requires forall n :: n in Flat(rows) ==> n in NodeIds(s.nodes)
    requires r < |rows| && c < |rows[r]|
    ensures i < |out.nodes| && out.nodes[i].id == rows[r][c]
    ensures out.nodes[i].position == Slot(MaxWidth(rows), |rows[r]|, r, c)
  {
    hide Slot, MaxWidth, Flat;
    InFlat(rows, r, rows[r][c]);
    i :| 0 <= i < |s.nodes| && s.nodes[i].id == rows[r][c];
    assert HasSlot(rows, s.nodes[i].id, out.nodes[i].position);
    var q, d :| LastAt(rows, s.nodes[i].id, q, d) && out.nodes[i].position == Slot(MaxWidth(rows), |rows[q]|, q, d);
    OnePlace(rows, r, c, q, d);
  }

  lemma OnePlace(rows: seq<seq<string>>, r: nat, c: nat, q: nat, d: nat)
    requires Distinct(Flat(rows))
    requires r < |rows| && c < |rows[r]| && q < |rows| && d < |rows[q]| && rows[r][c] == rows[q][d]
    ensures r == q && c == d
  {
    hide Flat;
    RowsDistinct(rows, r);
    RowsDistinct(rows, q);
  }

  lemma SlotsCentred(s: BuilderState, out: BuilderState, rows: seq<seq<string>>)
    requires LaidOut(s, out, rows) && Distinct(Flat(rows))
    requires forall n :: n in Flat(rows) <==> n in NodeIds(s.nodes)
    ensures Centred(out.nodes, 260 * MaxWidth(rows))
  {
    hide Slot, Flat, NodeIds;
    var w := MaxWidth(rows);
    forall i | 0 <= i < |out.nodes|
      ensures HasMirror(out.nodes, out.nodes[i].position, 260 * w)
    {
      assert HasSlot(rows, s.nodes[i].id, out.nodes[i].position);
      var r, c :| LastAt(rows, s.nodes[i].id, r, c) && out.nodes[i].position == Slot(w, |rows[r]|, r, c);
      var k := DrawnAt(s, out, rows, r, |rows[r]| - 1 - c);
      SlotAt(w, |rows[r]|, r, c);
      SlotAt(w, |rows[r]|, r, |rows[r]| - 1 - c);
    }
    if out.nodes != [] {
      assert HasSlot(rows, s.nodes[0].id, out.nodes[0].position);
      var r :| 0 <= r < |rows| && |rows[r]| == w;
      var k := DrawnAt(s, out, rows, r, 0);
      SlotAt(w, w, r, 0);
    }
  }

  lemma SlotsAtDepth(s: BuilderState, out: BuilderState, k: nat)
    requires Rounds(s, k).queue == [] && LaidOut(s, out, Rounds(s, k).layers)
    requires ValidEdges(s) && !Cyclic(CanvasGraph(s))
    ensures RowsAreDepths(s, out)
  {
    hide Slot, MaxWidth, IsDepth, CanvasGraph, ValidEdges, Rounds, Cyclic;
    var rows := Rounds(s, k).layers;
    forall i | 0 <= i < |out.nodes|
      ensures AtDepth(CanvasGraph(s), out.nodes[i])
    {
      assert HasSlot(rows, s.nodes[i].id, out.nodes[i].position);
      var r, c :| LastAt(rows, s.nodes[i].id, r, c) && out.nodes[i].position == Slot(MaxWidth(rows), |rows[r]|, r, c);
      SlotAt(MaxWidth(rows), |rows[r]|, r, c);
      var d := LastRowIsDepth(s, k, s.nodes[i].id);
      assert r == d;
    }
  }

  lemma DepthsPointDown(s: BuilderState, out: BuilderState)
    requires RowsAreDepths(s, out) && out == s.(nodes := out.nodes) && ValidEdges(s)
    ensures EdgesPointDown(out)
  {
    hide IsDepth, CanvasGraph;
    forall e, i, k |
      e in out.edges && 0 <= i < |out.nodes| && 0 <= k < |out.nodes| &&
      e.source == out.nodes[i].id && e.target == out.nodes[k].id
      ensures out.nodes[i].position.y + 160 <= out.nodes[k].position.y
    {
      assert AtDepth(CanvasGraph(s), out.nodes[i]) && AtDepth(CanvasGraph(s), out.nodes[k]);
      var d: nat :| IsDepth(CanvasGraph(s), out.nodes[i].id, d) && out.nodes[i].position.y == d * 160;
      var f: nat :| IsDepth(CanvasGraph(s), out.nodes[k].id, f) && out.nodes[k].position.y == f * 160;
      CanvasEdges(s, e.source, e.target);
      DepthGrows(CanvasGraph(s), e.source, e.target, d, f);
    }
  }

  /** Only positions change, and every row stays inside one frame.  Boxes overlap
      exactly where IDs are repeated; where they are not, the rows of a canvas with
      valid edges are centred.  On an acyclic one the row of a node is its depth and
      every edge points down, repeated IDs or not. */
  method Layout(s: BuilderState) returns (out: BuilderState)
    requires LoopEnds(s)
    ensures |out.nodes| == |s.nodes| && out == s.(nodes := out.nodes)
    ensures forall i :: 0 <= i < |s.nodes| ==> out.nodes[i] == s.nodes[i].(position := out.nodes[i].position)
    ensures exists rows :: DrawnRows(s, rows) && LaidOut(s, out, rows)
    ensures NoOverlap(out.nodes) <==> UniqueNodeIds(s.nodes)
    ensures exists w :: Framed(out.nodes, w) && (ValidEdges(s) && UniqueNodeIds(s.nodes) ==> Centred(out.nodes, w))
    ensures ValidEdges(s) && !Cyclic(CanvasGraph(s)) ==> RowsAreDepths(s, out) && EdgesPointDown(out)
  {
    hide Flat, Distinct, Placed, NodeIds, Cyclic, CanvasGraph, Rounds, LoopEnds, ValidEdges, UniqueNodeIds;
    hide RowsAreDepths, EdgesPointDown, Centred, Framed, NoOverlap, LastAt, HasSlot, DrawnRows;
    if s.nodes == [] {
      NothingToDraw(s);
      NothingDrawn(s);
      return s;
    }
    var rows, unplaced := Rows(s);
    var positions := PlaceRows(rows);
    out := ApplyPositions(s, positions, rows);
    ApartIffUnique(s, out, rows);
    SlotsFramed(s, out, rows);
    if ValidEdges(s) && UniqueNodeIds(s.nodes) {
      SlotsCentred(s, out, rows);
    }
    if ValidEdges(s) && !Cyclic(CanvasGraph(s)) {
      ghost var k: nat :| Rounds(s, k).queue == [] && Rounds(s, k).layers == rows;
      SlotsAtDepth(s, out, k);
      DepthsPointDown(s, out);
    }
  }

  lemma NothingToDraw(s: BuilderState)
    requires s.nodes == []
    ensures LaidOut(s, s, [])
    ensures NoOverlap(s.nodes) && UniqueNodeIds(s.nodes) && Framed(s.nodes, 0) && Centred(s.nodes, 0)
    ensures RowsAreDepths(s, s) && EdgesPointDown(s)
  {
  }

  lemma NothingDrawn(s: BuilderState)
    requires s.nodes == []
    ensures DrawnRows(s, [])
  {
    hide InDegrees;
    var p := Rounds(s, 0);
    assert p == Start(s) && p.queue == [] && Unplaced([], Members(Flat(p.layers))) == [];
    assert [] == p.layers + LastRow([]);
  }
}
