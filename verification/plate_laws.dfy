/** What the plate builder produces: counting laws (one top plate per cell, one connector
    per unit depth step between neighbours) and the geometry of the connectors. */
module PlateLaws {
  import opened Vectors
  import opened Rng
  import opened Scene
  import opened Plates

  /** Number of top plates (those facing `Down`) in a list. */
  function CountTop(plates: seq<Plate>): nat
  {
    if plates == [] then 0
    else (if plates[0].normal == Down then 1 else 0) + CountTop(plates[1..])
  }

  lemma CountTopSingle(p: Plate)
    ensures CountTop([p]) == if p.normal == Down then 1 else 0
  {
    assert [p][1..] == [];
  }

  lemma {:induction false} CountTopAppend(a: seq<Plate>, b: seq<Plate>)
    ensures CountTop(a + b) == CountTop(a) + CountTop(b)
  {
    if a == [] {
      assert a + b == b;
    } else {
      assert (a + b)[1..] == a[1..] + b;
      CountTopAppend(a[1..], b);
    }
  }

  /** Depth steps between cell `(row, col)` and its right and lower neighbours (none past
      the last column or row). */
  function CellSteps(c: Config, depths: seq<seq<int>>, row: nat, col: nat): nat
  {
    var depth := DepthAt(depths, row, col);
    (if col + 1 < c.width then Abs(DepthAt(depths, row, col + 1) - depth) else 0)
    + (if row + 1 < c.height then Abs(DepthAt(depths, row + 1, col) - depth) else 0)
  }

  function RowSteps(c: Config, depths: seq<seq<int>>, row: nat, cols: nat): nat
  {
    if cols == 0 then 0 else RowSteps(c, depths, row, cols - 1) + CellSteps(c, depths, row, cols - 1)
  }

  /** Sum of `|d2 - d1|` over all pairs of neighbouring cells in the first `rows` rows. */
  function GridSteps(c: Config, depths: seq<seq<int>>, rows: nat): nat
  {
    if rows == 0 then 0 else GridSteps(c, depths, rows - 1) + RowSteps(c, depths, rows - 1, c.width)
  }

  /** The outward normal of a connector on `side` with sign `s`. */
  function Outward(side: Side, s: real): Vec3
  {
    match side
    case Right => Vec3(s, 0.0, 0.0)
    case Below => Vec3(0.0, s, 0.0)
  }

  /** All four corners of `p` lie on the edge that cell `(row, col)` shares with its
      neighbour on `side`. */
  predicate OnSharedEdge(c: Config, row: nat, col: nat, side: Side, p: Plate)
  {
    match side
    case Right =>
      p.positions.c0.x == p.positions.c1.x == p.positions.c2.x == p.positions.c3.x == ColRight(c, col)
    case Below =>
      p.positions.c0.y == p.positions.c1.y == p.positions.c2.y == p.positions.c3.y == RowBottom(c, row)
  }

  /** A top plate is horizontal at its cell's level, spans the cell, faces down, is white,
      and starts with empty buffers. */
  lemma TopPlateShape(c: Config, row: nat, col: nat, depth: int)
    ensures var p := TopPlate(c, row, col, depth);
      && p.positions.c0.z == p.positions.c1.z == p.positions.c2.z == p.positions.c3.z == Level(c, depth)
      && p.positions.c0.x == p.positions.c3.x == ColLeft(c, col) && p.positions.c1.x == p.positions.c2.x == ColRight(c, col)
      && p.positions.c0.y == p.positions.c1.y == RowTop(c, row) && p.positions.c2.y == p.positions.c3.y == RowBottom(c, row)
      && p.normal == Down && p.textures == UnitSquare && p.material == Material(White, c.retransmission)
      && p.emitters == [] && p.receivers == [] && p.colors == []
  {
  }

  /** A connector is a vertical wall on the edge the cell shares with its neighbour on
      `side`, spanning levels `d1` and `d2`, with the drawn tint and empty buffers. */
  lemma ConnectorShape(c: Config, row: nat, col: nat, side: Side, d1: int, d2: int, tint: Vec3)
    ensures var p := Connector(c, row, col, side, d1, d2, tint);
      && OnSharedEdge(c, row, col, side, p)
      && p.positions.c0.z == Level(c, d1) && p.positions.c2.z == Level(c, d2)
      && p.normal.z == 0.0
      && p.textures == UnitSquare && p.material == Material(tint, c.retransmission)
      && p.emitters == [] && p.receivers == [] && p.colors == []
  {
  }

  lemma LevelStep(c: Config, d: int)
    ensures Level(c, d + 1) == Level(c, d) + c.plateWidth
  {
    assert ((d + 1) as real) * c.plateWidth == (d as real) * c.plateWidth + c.plateWidth;
  }

  /** A walk of `k` steps makes `k` connectors, none of them a top plate. */
  lemma {:induction false} RunCount(c: Config, row: nat, col: nat, side: Side, depth: int, depth2: int, k: nat,
                                    draws: Draws, pos: nat)
    ensures var run := Run(c, row, col, side, depth, depth2, k, draws, pos).plates;
            |run| == k && CountTop(run) == 0
  {
    if k > 0 {
      var prev := Run(c, row, col, side, depth, depth2, k - 1, draws, pos);
      var tint := GetColor(draws, prev.next, 100 - c.colorRate).color;
      var last := Connector(c, row, col, side, StepLevel(depth, depth2, k - 1), StepLevel(depth, depth2, k), tint);
      RunCount(c, row, col, side, depth, depth2, k - 1, draws, pos);
      CountTopAppend(prev.plates, [last]);
      CountTopSingle(last);
    }
  }

  /** Connector `i` of a walk spans levels `i` and `i + 1` of the walk. */
  lemma {:induction false} RunLevels(c: Config, row: nat, col: nat, side: Side, depth: int, depth2: int, k: nat,
                                     draws: Draws, pos: nat)
    ensures var run := Run(c, row, col, side, depth, depth2, k, draws, pos).plates;
      && |run| == k
      && forall i :: 0 <= i < k ==>
           && run[i].positions.c0.z == Level(c, StepLevel(depth, depth2, i))
           && run[i].positions.c2.z == Level(c, StepLevel(depth, depth2, i + 1))
  {
    if k > 0 {
      RunLevels(c, row, col, side, depth, depth2, k - 1, draws, pos);
    }
  }

  /** Every connector of a walk sits on the edge the cell shares with its neighbour and
      re-emits the configured share of what it receives. */
  lemma {:induction false} RunOnEdge(c: Config, row: nat, col: nat, side: Side, depth: int, depth2: int, k: nat,
                                     draws: Draws, pos: nat)
    ensures var run := Run(c, row, col, side, depth, depth2, k, draws, pos).plates;
      && |run| == k
      && forall i :: 0 <= i < k ==>
           OnSharedEdge(c, row, col, side, run[i]) && run[i].material.retransmission == c.retransmission
  {
    if k > 0 {
      RunOnEdge(c, row, col, side, depth, depth2, k - 1, draws, pos);
    }
  }

  /** With a positive plate width, every connector of a walk faces `+1` along the edge's
      axis exactly when the neighbour is deeper. */
  lemma {:induction false} RunNormals(c: Config, row: nat, col: nat, side: Side, depth: int, depth2: int, k: nat,
                                      draws: Draws, pos: nat)
    requires c.plateWidth > 0.0
    ensures var run := Run(c, row, col, side, depth, depth2, k, draws, pos).plates;
      && |run| == k
      && forall i :: 0 <= i < k ==> run[i].normal == Outward(side, if depth2 > depth then 1.0 else -1.0)
  {
    if k > 0 {
      RunNormals(c, row, col, side, depth, depth2, k - 1, draws, pos);
      var d1, d2 := StepLevel(depth, depth2, k - 1), StepLevel(depth, depth2, k);
      if depth2 > depth {
        LevelStep(c, d1);
        assert Level(c, d1) < Level(c, d2);
      } else {
        LevelStep(c, d2);
        assert Level(c, d1) > Level(c, d2);
      }
    }
  }

  lemma RightRunCount(c: Config, depths: seq<seq<int>>, row: nat, col: nat, draws: Draws, pos: nat)
    ensures var right := RightRun(c, depths, row, col, draws, pos).plates;
            && |right| == (if col + 1 < c.width then Abs(DepthAt(depths, row, col + 1) - DepthAt(depths, row, col)) else 0)
            && CountTop(right) == 0
  {
    var depth, depth2 := DepthAt(depths, row, col), DepthAt(depths, row, col + 1);
    RunCount(c, row, col, Right, depth, depth2, Abs(depth2 - depth), draws, pos);
  }

  lemma BelowRunCount(c: Config, depths: seq<seq<int>>, row: nat, col: nat, draws: Draws, pos: nat)
    ensures var below := BelowRun(c, depths, row, col, draws, pos).plates;
            && |below| == (if row + 1 < c.height then Abs(DepthAt(depths, row + 1, col) - DepthAt(depths, row, col)) else 0)
            && CountTop(below) == 0
  {
    var depth, depth2 := DepthAt(depths, row, col), DepthAt(depths, row + 1, col);
    RunCount(c, row, col, Below, depth, depth2, Abs(depth2 - depth), draws, pos);
  }

  /** A cell yields its top plate first, then `CellSteps` connectors. */
  lemma CellPlatesCount(c: Config, depths: seq<seq<int>>, row: nat, col: nat, draws: Draws, pos: nat)
    ensures var cell := CellPlates(c, depths, row, col, draws, pos).plates;
      && |cell| == 1 + CellSteps(c, depths, row, col)
      && cell[0] == TopPlate(c, row, col, DepthAt(depths, row, col))
      && CountTop(cell) == 1
  {
    var top := TopPlate(c, row, col, DepthAt(depths, row, col));
    var right := RightRun(c, depths, row, col, draws, pos);
    var below := BelowRun(c, depths, row, col, draws, right.next);
    RightRunCount(c, depths, row, col, draws, pos);
    BelowRunCount(c, depths, row, col, draws, right.next);
    CountTopSingle(top);
    CountTopAppend([top], right.plates);
    CountTopAppend([top] + right.plates, below.plates);
  }

  lemma {:induction false} RowPlatesLength(c: Config, depths: seq<seq<int>>, row: nat, cols: nat, draws: Draws, pos: nat)
    ensures |RowPlates(c, depths, row, cols, draws, pos).plates| == cols + RowSteps(c, depths, row, cols)
  {
    if cols > 0 {
      RowPlatesStep(c, depths, row, cols, draws, pos);
      RowPlatesLength(c, depths, row, cols - 1, draws, pos);
      CellPlatesCount(c, depths, row, cols - 1, draws, RowPlates(c, depths, row, cols - 1, draws, pos).next);
    }
  }

  lemma {:induction false} RowPlatesTops(c: Config, depths: seq<seq<int>>, row: nat, cols: nat, draws: Draws, pos: nat)
    ensures CountTop(RowPlates(c, depths, row, cols, draws, pos).plates) == cols
  {
    if cols > 0 {
      RowPlatesStep(c, depths, row, cols, draws, pos);
      RowPlatesTops(c, depths, row, cols - 1, draws, pos);
      CellPlatesCount(c, depths, row, cols - 1, draws, RowPlates(c, depths, row, cols - 1, draws, pos).next);
      CountTopAppend(RowPlates(c, depths, row, cols - 1, draws, pos).plates,
                     CellPlates(c, depths, row, cols - 1, draws, RowPlates(c, depths, row, cols - 1, draws, pos).next).plates);
    }
  }

  /** The first `cols` cells of row `row` have their top plates in `plates`. */
  predicate RowTopsIn(c: Config, depths: seq<seq<int>>, row: nat, cols: nat, plates: seq<Plate>)
  {
    forall col :: 0 <= col < cols ==> TopPlate(c, row, col, DepthAt(depths, row, col)) in plates
  }

  /** Every cell's top plate occurs among the plates of its row. */
  lemma {:induction false} RowTopPlates(c: Config, depths: seq<seq<int>>, row: nat, cols: nat, draws: Draws, pos: nat)
    ensures RowTopsIn(c, depths, row, cols, RowPlates(c, depths, row, cols, draws, pos).plates)
  {
    if cols > 0 {
      var prev := RowPlates(c, depths, row, cols - 1, draws, pos);
      var cell := CellPlates(c, depths, row, cols - 1, draws, prev.next).plates;
      RowTopPlates(c, depths, row, cols - 1, draws, pos);
      CellPlatesCount(c, depths, row, cols - 1, draws, prev.next);
      RowTopsConcat(c, depths, row, cols - 1, prev.plates, cell);
      RowPlatesStep(c, depths, row, cols, draws, pos);
    }
  }

  /** Every cell of the first `rows` rows has its top plate in `plates`. */
  predicate TopsIn(c: Config, depths: seq<seq<int>>, rows: nat, plates: seq<Plate>)
  {
    forall row, col :: 0 <= row < rows && 0 <= col < c.width ==>
      TopPlate(c, row, col, DepthAt(depths, row, col)) in plates
  }

  /** The top plates of rows above `last`, followed by those of row `last`. */
  lemma TopsConcat(c: Config, depths: seq<seq<int>>, last: nat, a: seq<Plate>, b: seq<Plate>)
    requires TopsIn(c, depths, last, a)
    requires RowTopsIn(c, depths, last, c.width, b)
    ensures TopsIn(c, depths, last + 1, a + b)
  {
    forall row, col | 0 <= row <= last && 0 <= col < c.width
      ensures TopPlate(c, row, col, DepthAt(depths, row, col)) in a + b
    {
      if row < last {
        assert TopPlate(c, row, col, DepthAt(depths, row, col)) in a;
      } else {
        assert TopPlate(c, row, col, DepthAt(depths, row, col)) in b;
      }
    }
  }

  /** The top plates of the cells left of `last`, followed by the plates of cell `last`,
      which start with its top plate. */
  lemma RowTopsConcat(c: Config, depths: seq<seq<int>>, row: nat, last: nat, a: seq<Plate>, b: seq<Plate>)
    requires RowTopsIn(c, depths, row, last, a)
    requires 0 < |b| && b[0] == TopPlate(c, row, last, DepthAt(depths, row, last))
    ensures RowTopsIn(c, depths, row, last + 1, a + b)
  {
    forall col | 0 <= col <= last
      ensures TopPlate(c, row, col, DepthAt(depths, row, col)) in a + b
    {
      if col < last {
        assert TopPlate(c, row, col, DepthAt(depths, row, col)) in a;
      } else {
        assert (a + b)[|a|] == b[0];
      }
    }
  }

  /** Every cell's top plate occurs among the plates of the first `rows` rows. */
  lemma {:induction false} GridTopPlates(c: Config, depths: seq<seq<int>>, rows: nat, draws: Draws)
    ensures TopsIn(c, depths, rows, GridPlates(c, depths, rows, draws).plates)
  {
    if rows > 0 {
      var prev := GridPlates(c, depths, rows - 1, draws);
      var last := RowPlates(c, depths, rows - 1, c.width, draws, prev.next).plates;
      GridTopPlates(c, depths, rows - 1, draws);
      RowTopPlates(c, depths, rows - 1, c.width, draws, prev.next);
      TopsConcat(c, depths, rows - 1, prev.plates, last);
      GridPlatesStep(c, depths, rows, draws);
    }
  }

  /** Cells in the first `rows` rows, counted row by row. */
  function Cells(rows: nat, width: nat): nat
  {
    if rows == 0 then 0 else Cells(rows - 1, width) + width
  }

  lemma {:induction false} CellsProduct(rows: nat, width: nat)
    ensures Cells(rows, width) == rows * width
  {
    if rows > 0 {
      CellsProduct(rows - 1, width);
      assert (rows - 1) * width + width == rows * width;
    }
  }

  lemma {:induction false} GridPlatesLength(c: Config, depths: seq<seq<int>>, rows: nat, draws: Draws)
    ensures |GridPlates(c, depths, rows, draws).plates| == Cells(rows, c.width) + GridSteps(c, depths, rows)
  {
    if rows > 0 {
      GridPlatesStep(c, depths, rows, draws);
      GridPlatesLength(c, depths, rows - 1, draws);
      RowPlatesLength(c, depths, rows - 1, c.width, draws, GridPlates(c, depths, rows - 1, draws).next);
    }
  }

  lemma GridTopsStep(c: Config, depths: seq<seq<int>>, rows: nat, draws: Draws)
    requires 0 < rows
    requires CountTop(GridPlates(c, depths, rows - 1, draws).plates) == Cells(rows - 1, c.width)
    requires CountTop(RowPlates(c, depths, rows - 1, c.width, draws, GridPlates(c, depths, rows - 1, draws).next).plates) == c.width
    ensures CountTop(GridPlates(c, depths, rows, draws).plates) == Cells(rows, c.width)
  {
    GridPlatesStep(c, depths, rows, draws);
    CountTopAppend(GridPlates(c, depths, rows - 1, draws).plates,
                   RowPlates(c, depths, rows - 1, c.width, draws, GridPlates(c, depths, rows - 1, draws).next).plates);
  }

  lemma {:induction false} GridPlatesTops(c: Config, depths: seq<seq<int>>, rows: nat, draws: Draws)
    ensures CountTop(GridPlates(c, depths, rows, draws).plates) == Cells(rows, c.width)
  {
    if rows > 0 {
      GridPlatesTops(c, depths, rows - 1, draws);
      RowPlatesTops(c, depths, rows - 1, c.width, draws, GridPlates(c, depths, rows - 1, draws).next);
      GridTopsStep(c, depths, rows, draws);
    }
  }

  /** The builder's output: `width * height` top plates, one per cell, and `GridSteps`
      connectors, `|d2 - d1|` per pair of neighbouring cells. */
  lemma PlateCount(c: Config, depths: seq<seq<int>>, draws: Draws)
    ensures var plates := GridPlates(c, depths, c.height, draws).plates;
      && |plates| == c.width * c.height + GridSteps(c, depths, c.height)
      && CountTop(plates) == c.width * c.height
      && |plates| - CountTop(plates) == GridSteps(c, depths, c.height)
  {
    GridPlatesLength(c, depths, c.height, draws);
    GridPlatesTops(c, depths, c.height, draws);
    CellsProduct(c.height, c.width);
  }

  /** Each cell's own top plate, at the cell's depth, is among the builder's output. */
  lemma TopPlatesPresent(c: Config, depths: seq<seq<int>>, draws: Draws)
    requires WellShaped(c, depths)
    ensures forall row, col :: 0 <= row < c.height && 0 <= col < c.width ==>
              TopPlate(c, row, col, depths[row][col]) in GridPlates(c, depths, c.height, draws).plates
  {
    GridTopPlates(c, depths, c.height, draws);
    forall row, col | 0 <= row < c.height && 0 <= col < c.width
      ensures TopPlate(c, row, col, depths[row][col]) in GridPlates(c, depths, c.height, draws).plates
    {
      assert DepthAt(depths, row, col) == depths[row][col];
    }
  }

  /** No depth variation at all: no connector steps anywhere. */
  lemma {:induction false} FlatGridSteps(c: Config, depths: seq<seq<int>>, rows: nat)
    requires WellShaped(c, depths)
    requires forall r, col :: 0 <= r < c.height && 0 <= col < c.width ==> depths[r][col] == 0
    ensures GridSteps(c, depths, rows) == 0
  {
    if rows > 0 {
      FlatGridSteps(c, depths, rows - 1);
      FlatRowSteps(c, depths, rows - 1, c.width);
    }
  }

  lemma {:induction false} FlatRowSteps(c: Config, depths: seq<seq<int>>, row: nat, cols: nat)
    requires WellShaped(c, depths)
    requires forall r, col :: 0 <= r < c.height && 0 <= col < c.width ==> depths[r][col] == 0
    ensures RowSteps(c, depths, row, cols) == 0
  {
    if cols > 0 {
      FlatRowSteps(c, depths, row, cols - 1);
    }
  }

  /** A flat map gives exactly `width * height` plates, all of them top plates. */
  lemma FlatMapPlateCount(c: Config, depths: seq<seq<int>>, draws: Draws)
    requires WellShaped(c, depths)
    requires forall r, col :: 0 <= r < c.height && 0 <= col < c.width ==> depths[r][col] == 0
    ensures |GridPlates(c, depths, c.height, draws).plates| == c.width * c.height
    ensures CountTop(GridPlates(c, depths, c.height, draws).plates) == c.width * c.height
  {
    PlateCount(c, depths, draws);
    FlatGridSteps(c, depths, c.height);
  }
}
