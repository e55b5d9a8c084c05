/** Heightfield generation: a `height x width` grid of integer depths, each cell drawn
    from one engine (a trigger draw, then a depth draw only when the trigger fires). */
module Heightfield {
  import opened Rng
  import opened Scene

  /** One cell drawn at cursor `pos`: its depth and the cursor after it. */
  function CellDepth(draws: Draws, pos: nat, depthRate: nat, maxDepth: nat): (r: (int, nat))
    ensures pos < r.1 <= pos + 2
    ensures r.0 != 0 ==> Trigger(draws, pos) >= 100 - depthRate
    ensures -(maxDepth as int) <= r.0 <= maxDepth
  {
    if Trigger(draws, pos) >= 100 - depthRate then
      (Uniform(draws(pos + 1), -(maxDepth as int), maxDepth), pos + 2)
    else
      (0, pos + 1)
  }

  /** The first `cols` cells of a row whose first trigger is at cursor `pos`. */
  function RowPrefix(draws: Draws, pos: nat, depthRate: nat, maxDepth: nat, cols: nat): (seq<int>, nat)
  {
    if cols == 0 then ([], pos)
    else
      var (row, p) := RowPrefix(draws, pos, depthRate, maxDepth, cols - 1);
      var (d, p') := CellDepth(draws, p, depthRate, maxDepth);
      (row + [d], p')
  }

  /** The first `rows` rows of the map, drawn from a fresh engine. */
  function GridPrefix(draws: Draws, c: Config, rows: nat): (seq<seq<int>>, nat)
  {
    if rows == 0 then ([], 0)
    else
      var (grid, p) := GridPrefix(draws, c, rows - 1);
      var (row, p') := RowPrefix(draws, p, c.depthRate, c.maxDepth, c.width);
      (grid + [row], p')
  }

  /** Cursor of the trigger draw of cell `(row, col)`. */
  function CellCursor(draws: Draws, c: Config, row: nat, col: nat): nat
  {
    RowPrefix(draws, GridPrefix(draws, c, row).1, c.depthRate, c.maxDepth, col).1
  }

  /** The generator: rows are produced top to bottom, cells left to right, one engine
      shared by the trigger and the depth distribution. */
  method GenerateDepthsMap(c: Config, draws: Draws) returns (depthsMap: seq<seq<int>>)
    ensures depthsMap == GridPrefix(draws, c, c.height).0
  {
    var threshold := 100 - c.depthRate;
    var pos := 0;
    var rows: nat := c.height;
    depthsMap := [];
    while rows != 0
      invariant rows <= c.height
      invariant (depthsMap, pos) == GridPrefix(draws, c, c.height - rows)
      decreases rows
    {
      rows := rows - 1;
      var rowStart := pos;
      var colsMap := [];
      var cols: nat := c.width;
      while cols != 0
        invariant cols <= c.width
        invariant (colsMap, pos) == RowPrefix(draws, rowStart, c.depthRate, c.maxDepth, c.width - cols)
        decreases cols
      {
        cols := cols - 1;
        var depth := 0;
        var trigger := Uniform(draws(pos), 0, 100);
        pos := pos + 1;
        if trigger >= threshold {
          depth := Uniform(draws(pos), -(c.maxDepth as int), c.maxDepth);
          pos := pos + 1;
        }
        colsMap := colsMap + [depth];
      }
      depthsMap := depthsMap + [colsMap];
    }
  }

  /** A row prefix has one entry per cell, each in `[-maxDepth, maxDepth]`, and
      entry `i` is the cell drawn at the cursor left by the first `i` cells. */
  lemma {:induction false} RowPrefixCells(draws: Draws, pos: nat, depthRate: nat, maxDepth: nat, cols: nat)
    ensures var row := RowPrefix(draws, pos, depthRate, maxDepth, cols).0;
      && |row| == cols
      && forall i :: 0 <= i < cols ==>
           row[i] == CellDepth(draws, RowPrefix(draws, pos, depthRate, maxDepth, i).1, depthRate, maxDepth).0
  {
    if cols > 0 {
      RowPrefixCells(draws, pos, depthRate, maxDepth, cols - 1);
    }
  }

  /** A grid prefix has one row per drawn row, row `r` starting at the cursor left by the
      rows above it. */
  lemma {:induction false} GridPrefixRows(draws: Draws, c: Config, rows: nat)
    ensures var grid := GridPrefix(draws, c, rows).0;
      && |grid| == rows
      && forall r :: 0 <= r < rows ==>
           grid[r] == RowPrefix(draws, GridPrefix(draws, c, r).1, c.depthRate, c.maxDepth, c.width).0
  {
    if rows > 0 {
      GridPrefixRows(draws, c, rows - 1);
    }
  }

  /** The generated map has `height` rows of `width` entries; every entry is 0 unless its
      trigger draw reached `100 - depthRate`, in which case it is the next draw mapped into
      `[-maxDepth, maxDepth]`. */
  lemma DepthsMapCells(draws: Draws, c: Config)
    ensures var grid := GridPrefix(draws, c, c.height).0;
      && |grid| == c.height
      && (forall r :: 0 <= r < c.height ==> |grid[r]| == c.width)
      && (forall r, col :: 0 <= r < c.height && 0 <= col < c.width ==>
            var p := CellCursor(draws, c, r, col);
            && -(c.maxDepth as int) <= grid[r][col] <= c.maxDepth
            && grid[r][col] == (if Trigger(draws, p) >= 100 - c.depthRate
                                then Uniform(draws(p + 1), -(c.maxDepth as int), c.maxDepth) else 0))
  {
    GridPrefixRows(draws, c, c.height);
    forall r | 0 <= r < c.height
      ensures var row := GridPrefix(draws, c, c.height).0[r];
        && |row| == c.width
        && forall col :: 0 <= col < c.width ==>
             row[col] == CellDepth(draws, CellCursor(draws, c, r, col), c.depthRate, c.maxDepth).0
    {
      RowPrefixCells(draws, GridPrefix(draws, c, r).1, c.depthRate, c.maxDepth, c.width);
    }
  }

  /** The generated map has `height` rows of `width` entries. */
  lemma DepthsMapShape(draws: Draws, c: Config)
    ensures var grid := GridPrefix(draws, c, c.height).0;
      |grid| == c.height && forall r :: 0 <= r < c.height ==> |grid[r]| == c.width
  {
    DepthsMapCells(draws, c);
  }

  /** Source behaviour worth knowing: the trigger distribution has 101 values, so a
      `depthRate` of 0 still randomises a cell whose trigger draw is 100. */
  lemma ZeroRateStillTriggers(draws: Draws, pos: nat, maxDepth: nat)
    requires Trigger(draws, pos) == 100
    ensures CellDepth(draws, pos, 0, maxDepth) == (Uniform(draws(pos + 1), -(maxDepth as int), maxDepth), pos + 2)
  {
  }
}
