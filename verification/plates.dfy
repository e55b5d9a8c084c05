/** Plate building: one horizontal top plate per heightfield cell, plus one vertical
    connector plate per unit depth step toward the right and the lower neighbour. */
module Plates {
  import opened Vectors
  import opened Rng
  import opened Scene

  const White: Vec3 := Vec3(1.0, 1.0, 1.0)
  const Reddish: Vec3 := Vec3(1.0, 0.5, 0.5)
  const Greenish: Vec3 := Vec3(0.5, 1.0, 0.5)
  const Bluish: Vec3 := Vec3(0.5, 0.5, 1.0)

  /** Normal of every top plate. */
  const Down: Vec3 := Vec3(0.0, 0.0, -1.0)

  /** Plates built so far and the tint-engine cursor after them. */
  datatype Built = Built(plates: seq<Plate>, next: nat)

  /** A tint and the cursor after its draws. */
  datatype Tint = Tint(color: Vec3, next: nat)

  // ---------------------------------------------------------------------------
  // Connector tint
  // ---------------------------------------------------------------------------

  /** Tint of a connector, drawn at cursor `pos` of the tint engine; `rate` is
      `100 - colorRate`. White when the first draw is below `rate`; otherwise a second
      draw picks reddish (above 66), greenish (34 to 66) or bluish (up to 33). */
  function GetColor(draws: Draws, pos: nat, rate: int): (r: Tint)
    ensures r.color == White <==> Trigger(draws, pos) < rate
    ensures r.next == if r.color == White then pos + 1 else pos + 2
    ensures r.color == Reddish <==> Trigger(draws, pos) >= rate && Trigger(draws, pos + 1) > 66
    ensures r.color == Greenish <==> Trigger(draws, pos) >= rate && 33 < Trigger(draws, pos + 1) <= 66
    ensures r.color == Bluish <==> Trigger(draws, pos) >= rate && Trigger(draws, pos + 1) <= 33
  {
    if Trigger(draws, pos) < rate then Tint(White, pos + 1)
    else
      var tint := Trigger(draws, pos + 1);
      if tint > 66 then Tint(Reddish, pos + 2)
      else if tint > 33 then Tint(Greenish, pos + 2)
      else Tint(Bluish, pos + 2)
  }

  // ---------------------------------------------------------------------------
  // Geometry of one cell
  // ---------------------------------------------------------------------------

  function HalfWidth(c: Config): real { (c.width as real) * c.plateWidth * 0.5 }
  function HalfHeight(c: Config): real { (c.height as real) * c.plateWidth * 0.5 }
  function ColLeft(c: Config, col: nat): real { (col as real) * c.plateWidth - HalfWidth(c) }
  function ColRight(c: Config, col: nat): real { ((col + 1) as real) * c.plateWidth - HalfWidth(c) }
  function RowTop(c: Config, row: nat): real { (row as real) * c.plateWidth - HalfHeight(c) }
  function RowBottom(c: Config, row: nat): real { ((row + 1) as real) * c.plateWidth - HalfHeight(c) }

  /** Height of depth level `d`. */
  function Level(c: Config, d: int): real { (d as real) * c.plateWidth }

  /** The horizontal plate of cell `(row, col)` at its own depth. */
  function TopPlate(c: Config, row: nat, col: nat, depth: int): Plate
  {
    var l, r, t, b, z := ColLeft(c, col), ColRight(c, col), RowTop(c, row), RowBottom(c, row), Level(c, depth);
    Plate(Quad(Vec3(l, t, z), Vec3(r, t, z), Vec3(r, b, z), Vec3(l, b, z)), UnitSquare, Down,
          Material(White, c.retransmission), [], [], [])
  }

  /** Which neighbour a connector faces. */
  datatype Side = Right | Below

  /** The vertical plate between levels `d1` and `d2` on the right or lower edge of a cell;
      its normal points along the edge's axis, negative when the wall goes up. */
  function Connector(c: Config, row: nat, col: nat, side: Side, d1: int, d2: int, tint: Vec3): Plate
  {
    var l, r, t, b := ColLeft(c, col), ColRight(c, col), RowTop(c, row), RowBottom(c, row);
    var z1, z2 := Level(c, d1), Level(c, d2);
    var n := if z1 > z2 then -1.0 else 1.0;
    match side
    case Right =>
      Plate(Quad(Vec3(r, t, z1), Vec3(r, t, z2), Vec3(r, b, z2), Vec3(r, b, z1)), UnitSquare,
            Vec3(n, 0.0, 0.0), Material(tint, c.retransmission), [], [], [])
    case Below =>
      Plate(Quad(Vec3(l, b, z1), Vec3(r, b, z1), Vec3(r, b, z2), Vec3(l, b, z2)), UnitSquare,
            Vec3(0.0, n, 0.0), Material(tint, c.retransmission), [], [], [])
  }

  function Abs(x: int): nat { if x < 0 then -x else x }

  /** Depth level after `i` unit steps from `depth` toward `depth2`. */
  function StepLevel(depth: int, depth2: int, i: nat): int
  {
    if depth2 > depth then depth + i else depth - i
  }

  /** The first `k` connectors of the walk from `depth` toward `depth2`, each tinted from
      the tint engine starting at cursor `pos`. */
  function Run(c: Config, row: nat, col: nat, side: Side, depth: int, depth2: int, k: nat,
               draws: Draws, pos: nat): Built
  {
    if k == 0 then Built([], pos)
    else
      var prev := Run(c, row, col, side, depth, depth2, k - 1, draws, pos);
      var tint := GetColor(draws, prev.next, 100 - c.colorRate);
      Built(prev.plates + [Connector(c, row, col, side, StepLevel(depth, depth2, k - 1), StepLevel(depth, depth2, k), tint.color)], tint.next)
  }

  /** A depths map of the configured shape. */
  predicate WellShaped(c: Config, depths: seq<seq<int>>)
  {
    |depths| == c.height && forall r :: 0 <= r < |depths| ==> |depths[r]| == c.width
  }

  /** The depth of cell `(row, col)`; the builder only reads inside the map, and the
      specification functions below read 0 outside it so that they need no precondition. */
  function DepthAt(depths: seq<seq<int>>, row: nat, col: nat): (d: int)
    ensures row < |depths| && col < |depths[row]| ==> d == depths[row][col]
  {
    if row < |depths| && col < |depths[row]| then depths[row][col] else 0
  }

  /** The walk toward the right neighbour (none in the last column). */
  function RightRun(c: Config, depths: seq<seq<int>>, row: nat, col: nat, draws: Draws, pos: nat): Built
  {
    var depth, depth2 := DepthAt(depths, row, col), DepthAt(depths, row, col + 1);
    if col + 1 < c.width then Run(c, row, col, Right, depth, depth2, Abs(depth2 - depth), draws, pos)
    else Built([], pos)
  }

  /** The walk toward the lower neighbour (none in the last row). */
  function BelowRun(c: Config, depths: seq<seq<int>>, row: nat, col: nat, draws: Draws, pos: nat): Built
  {
    var depth, depth2 := DepthAt(depths, row, col), DepthAt(depths, row + 1, col);
    if row + 1 < c.height then Run(c, row, col, Below, depth, depth2, Abs(depth2 - depth), draws, pos)
    else Built([], pos)
  }

  /** All plates of cell `(row, col)`: the top plate, the walk to the right neighbour,
      the walk to the lower neighbour. */
  function CellPlates(c: Config, depths: seq<seq<int>>, row: nat, col: nat, draws: Draws, pos: nat): Built
  {
    var right := RightRun(c, depths, row, col, draws, pos);
    var below := BelowRun(c, depths, row, col, draws, right.next);
    Built([TopPlate(c, row, col, DepthAt(depths, row, col))] + right.plates + below.plates, below.next)
  }

  /** The plates of the first `cols` cells of row `row`. */
  function RowPlates(c: Config, depths: seq<seq<int>>, row: nat, cols: nat, draws: Draws, pos: nat): Built
  {
    if cols == 0 then Built([], pos)
    else
      var prev := RowPlates(c, depths, row, cols - 1, draws, pos);
      var cell := CellPlates(c, depths, row, cols - 1, draws, prev.next);
      Built(prev.plates + cell.plates, cell.next)
  }

  /** The plates of the first `rows` rows, tints drawn from a fresh engine. */
  function GridPlates(c: Config, depths: seq<seq<int>>, rows: nat, draws: Draws): Built
  {
    if rows == 0 then Built([], 0)
    else
      var prev := GridPlates(c, depths, rows - 1, draws);
      var row := RowPlates(c, depths, rows - 1, c.width, draws, prev.next);
      Built(prev.plates + row.plates, row.next)
  }

  lemma RowPlatesStep(c: Config, depths: seq<seq<int>>, row: nat, cols: nat, draws: Draws, pos: nat)
    requires 0 < cols
    ensures var prev := RowPlates(c, depths, row, cols - 1, draws, pos);
            var cell := CellPlates(c, depths, row, cols - 1, draws, prev.next);
            && RowPlates(c, depths, row, cols, draws, pos).plates == prev.plates + cell.plates
            && RowPlates(c, depths, row, cols, draws, pos).next == cell.next
  {
  }

  lemma GridPlatesStep(c: Config, depths: seq<seq<int>>, rows: nat, draws: Draws)
    requires 0 < rows
    ensures var prev := GridPlates(c, depths, rows - 1, draws);
            var row := RowPlates(c, depths, rows - 1, c.width, draws, prev.next);
            && GridPlates(c, depths, rows, draws).plates == prev.plates + row.plates
            && GridPlates(c, depths, rows, draws).next == row.next
  {
  }

  // ---------------------------------------------------------------------------
  // The builder
  // ---------------------------------------------------------------------------

  /** The `for d = depth; d != depth2; d += inc` walk: appends one connector per unit step. */
  method AppendConnectors(c: Config, row: nat, col: nat, side: Side, depth: int, depth2: int,
                          draws: Draws, pos: nat, plates: seq<Plate>)
    returns (plates': seq<Plate>, pos': nat)
    ensures var run := Run(c, row, col, side, depth, depth2, Abs(depth2 - depth), draws, pos);
            plates' == plates + run.plates && pos' == run.next
  {
    var inc := if depth2 > depth then 1 else -1;
    var d := depth;
    plates', pos' := plates, pos;
    ghost var k: nat := 0;
    while d != depth2
      invariant k <= Abs(depth2 - depth)
      invariant d == StepLevel(depth, depth2, k)
      invariant var run := Run(c, row, col, side, depth, depth2, k, draws, pos);
                plates' == plates + run.plates && pos' == run.next
      decreases Abs(depth2 - d)
    {
      var tint := GetColor(draws, pos', 100 - c.colorRate);
      plates' := plates' + [Connector(c, row, col, side, d, d + inc, tint.color)];
      pos' := tint.next;
      d := d + inc;
      k := k + 1;
    }
  }

  /** The body of the builder's inner loop: the plates of one cell. */
  method AppendCellPlates(c: Config, depthsMap: seq<seq<int>>, row: nat, col: nat, draws: Draws, pos: nat,
                          plates: seq<Plate>)
    returns (plates': seq<Plate>, pos': nat)
    requires WellShaped(c, depthsMap) && row < c.height && col < c.width
    ensures var cell := CellPlates(c, depthsMap, row, col, draws, pos);
            plates' == plates + cell.plates && pos' == cell.next
  {
    var depth := depthsMap[row][col];
    var top := plates + [TopPlate(c, row, col, depth)];
    plates', pos' := top, pos;
    if col < c.width - 1 {
      plates', pos' := AppendConnectors(c, row, col, Right, depth, depthsMap[row][col + 1], draws, pos', plates');
    }
    ghost var right := RightRun(c, depthsMap, row, col, draws, pos);
    assert plates' == top + right.plates && pos' == right.next;
    ghost var mid := plates';
    if row < c.height - 1 {
      plates', pos' := AppendConnectors(c, row, col, Below, depth, depthsMap[row + 1][col], draws, pos', plates');
    }
    ghost var below := BelowRun(c, depthsMap, row, col, draws, right.next);
    assert plates' == mid + below.plates && pos' == below.next;
    AppendAssoc(plates, [TopPlate(c, row, col, depth)], right.plates, below.plates);
  }

  lemma AppendAssoc(a: seq<Plate>, b: seq<Plate>, c: seq<Plate>, d: seq<Plate>)
    ensures a + b + c + d == a + (b + c + d)
  {
  }

  /** The builder's loop over the cells of one row. */
  method AppendRowPlates(c: Config, depthsMap: seq<seq<int>>, row: nat, draws: Draws, pos: nat, plates: seq<Plate>)
    returns (plates': seq<Plate>, pos': nat)
    requires WellShaped(c, depthsMap) && row < c.height
    ensures var done := RowPlates(c, depthsMap, row, c.width, draws, pos);
            plates' == plates + done.plates && pos' == done.next
  {
    plates', pos' := plates, pos;
    for col := 0 to c.width
      invariant var done := RowPlates(c, depthsMap, row, col, draws, pos);
                plates' == plates + done.plates && pos' == done.next
    {
      RowPlatesStep(c, depthsMap, row, col + 1, draws, pos);
      plates', pos' := AppendCellPlates(c, depthsMap, row, col, draws, pos', plates');
    }
  }

  /** The plate builder: cells row by row, left to right. */
  method GeneratePlates(c: Config, depthsMap: seq<seq<int>>, draws: Draws) returns (plates: seq<Plate>)
    requires WellShaped(c, depthsMap)
    ensures plates == GridPlates(c, depthsMap, c.height, draws).plates
  {
    var pos := 0;
    plates := [];
    for row := 0 to c.height
      invariant var done := GridPlates(c, depthsMap, row, draws);
                plates == done.plates && pos == done.next
    {
      GridPlatesStep(c, depthsMap, row + 1, draws);
      plates, pos := AppendRowPlates(c, depthsMap, row, draws, pos, plates);
    }
  }
}
