/** Sample grids: every plate gets a `res x res` grid of sample points (its emitters)
    and energy accumulators (its receivers); every light source is split into a
    `res x res` grid of photons that share its energy. */
module Samples {
  import opened Vectors
  import opened Scene
  import opened Plates

  // ---------------------------------------------------------------------------
  // Flat grid indices
  // ---------------------------------------------------------------------------

  /** Position of entry `(y, x)` in a row-major grid `width` entries wide. */
  function Index(width: nat, y: nat, x: nat): nat { y * width + x }

  lemma {:induction false} MulMono(a: nat, b: nat, d: nat)
    requires a < b
    ensures a * d + d <= b * d
  {
    assert b * d == (b - 1) * d + d;
    if a < b - 1 {
      MulMono(a, b - 1, d);
    }
  }

  /** The entry after the last one of row `y` is the first one of row `y + 1`. */
  lemma IndexNextRow(width: nat, y: nat)
    ensures Index(width, y, width) == Index(width, y + 1, 0)
  {
    assert (y + 1) * width == y * width + width;
  }

  /** Row and column of a flat index are recovered by `/` and `%`. */
  lemma IndexDivMod(width: nat, y: nat, x: nat)
    requires x < width
    ensures Index(width, y, x) / width == y && Index(width, y, x) % width == x
  {
    var n := Index(width, y, x);
    var q, r := n / width, n % width;
    assert n == q * width + r;
    if q < y {
      MulMono(q, y, width);
    } else if y < q {
      MulMono(y, q, width);
    }
  }

  /** A flat index of a `rows x width` grid stays below `rows * width`. */
  lemma IndexBound(width: nat, rows: nat, y: nat, x: nat)
    requires y < rows && x < width
    ensures Index(width, y, x) < rows * width
  {
    MulMono(y, rows, width);
  }

  /** Every flat index below `rows * width` is the index of its row and column. */
  lemma SplitIndex(width: nat, rows: nat, i: nat)
    requires i < rows * width
    ensures 0 < width && i / width < rows && i % width < width
    ensures Index(width, i / width, i % width) == i
  {
    if rows <= i / width {
      MulMono(rows, i / width + 1, width);
    }
  }

  // ---------------------------------------------------------------------------
  // Preparation of one plate
  // ---------------------------------------------------------------------------

  /** `(i + 0.5) / res`: the centre of the `i`-th of `res` equal slices of `[0, 1]`. */
  function Weight(i: nat, res: nat): real
    requires res > 0
  {
    ((i as real) + 0.5) / (res as real)
  }

  /** Multiplying by a positive factor keeps comparisons. */
  lemma ScaleMono(w: real, a: real, r: real)
    requires r > 0.0
    ensures w < a ==> w * r < a * r
    ensures w > a ==> w * r > a * r
  {
  }

  /** Every slice centre lies strictly inside `(0, 1)`. */
  lemma WeightBounds(i: nat, res: nat)
    requires i < res
    ensures 0.0 < Weight(i, res) < 1.0
  {
    var r, w := res as real, Weight(i, res);
    assert w * r == (i as real) + 0.5;
    ScaleMono(w, 0.0, r);
    ScaleMono(w, 1.0, r);
  }

  /** Slice centres strictly increase with the slice number. */
  lemma WeightIncreasing(i: nat, j: nat, res: nat)
    requires i < j && res > 0
    ensures Weight(i, res) < Weight(j, res)
  {
    var r := res as real;
    assert Weight(i, res) * r == (i as real) + 0.5;
    assert Weight(j, res) * r == (j as real) + 0.5;
    ScaleMono(Weight(i, res), Weight(j, res), r);
  }

  /** The sample point of grid cell `(x, y)`: corner 0 moved by the `x` weight along the
      edge to corner 1 and by the `y` weight along the edge to corner 3. */
  function SamplePosition(q: Quad, res: nat, x: nat, y: nat): Vec3
    requires res > 0
  {
    Add(Add(q.c0, Scale(Sub(q.c1, q.c0), Weight(x, res))), Scale(Sub(q.c3, q.c0), Weight(y, res)))
  }

  /** The value of a freshly value-initialised photon. */
  const Blank: Photon := Photon(Zero, Zero, Zero)

  /** `std::vector::resize`: the first `n` entries, padded with `fill`. */
  function Resized<T>(s: seq<T>, n: nat, fill: T): (r: seq<T>)
    ensures |r| == n
    ensures forall i :: 0 <= i < n ==> r[i] == if i < |s| then s[i] else fill
  {
    if n <= |s| then s[..n] else s + seq(n - |s|, _ => fill)
  }

  /** `n` zero vectors: a resized buffer whose bytes were then cleared. */
  function Zeros(n: nat): (r: seq<Vec3>)
    ensures |r| == n && forall i :: 0 <= i < n ==> r[i] == Zero
  {
    seq(n, _ => Zero)
  }

  /** Emitter slot `j` of a grid `res` wide holds the sample point of its row `j / res`
      and column `j % res`, with no energy. */
  ghost predicate Sampled(e: Photon, q: Quad, res: nat, j: nat)
  {
    res > 0 && e.position == SamplePosition(q, res, j % res, j / res) && e.color == Zero
  }

  /** `after` is `before` once its buffers are prepared for resolution `res`: same surface
      and colours, `res * res` zeroed receivers, and `res * res` sampled emitters, each
      keeping the normal its slot had (that of a fresh photon for a new slot). */
  ghost predicate Prepared(before: Plate, after: Plate, res: nat)
  {
    && SameSurface(before, after)
    && after.colors == before.colors
    && |after.receivers| == res * res
    && (forall i :: 0 <= i < res * res ==> after.receivers[i] == Zero)
    && |after.emitters| == res * res
    && (forall i :: 0 <= i < res * res ==>
          && Sampled(after.emitters[i], before.positions, res, i)
          && after.emitters[i].normal == (if i < |before.emitters| then before.emitters[i].normal else Zero))
  }

  /** The per-plate preparation: size and clear the receivers, size the emitters, then
      walk the grid row by row storing each sample point and clearing its energy. */
  method PrepareSamples(p: Plate, res: nat) returns (p': Plate)
    ensures Prepared(p, p', res)
  {
    var emitters := Resized(p.emitters, res * res, Blank);
    var i := 0;
    for y := 0 to res
      invariant i == Index(res, y, 0) && i <= res * res
      invariant |emitters| == res * res
      invariant forall j :: 0 <= j < res * res ==>
                  emitters[j].normal == (if j < |p.emitters| then p.emitters[j].normal else Zero)
      invariant forall j :: 0 <= j < i ==> Sampled(emitters[j], p.positions, res, j)
    {
      for x := 0 to res
        invariant i == Index(res, y, x) && i <= res * res
        invariant |emitters| == res * res
        invariant forall j :: 0 <= j < res * res ==>
                    emitters[j].normal == (if j < |p.emitters| then p.emitters[j].normal else Zero)
        invariant forall j :: 0 <= j < i ==> Sampled(emitters[j], p.positions, res, j)
      {
        IndexBound(res, res, y, x);
        IndexDivMod(res, y, x);
        ghost var before := emitters;
        emitters := emitters[i := Photon(SamplePosition(p.positions, res, x, y), emitters[i].normal, Zero)];
        forall j | 0 <= j <= i
          ensures Sampled(emitters[j], p.positions, res, j)
        {
          if j < i {
            assert emitters[j] == before[j];
          }
        }
        i := i + 1;
      }
      IndexNextRow(res, y);
    }
    p' := p.(receivers := Zeros(res * res), emitters := emitters);
  }

  /** The preparation of every plate; each plate's buffers are its own. */
  method PrepareAll(plates: seq<Plate>, res: nat) returns (plates': seq<Plate>)
    ensures |plates'| == |plates|
    ensures forall k :: 0 <= k < |plates| ==> Prepared(plates[k], plates'[k], res)
  {
    plates' := plates;
    for k := 0 to |plates|
      invariant |plates'| == |plates|
      invariant forall j :: 0 <= j < k ==> Prepared(plates[j], plates'[j], res)
      invariant forall j :: k <= j < |plates| ==> plates'[j] == plates[j]
    {
      var p := PrepareSamples(plates'[k], res);
      plates' := plates'[k := p];
    }
  }

  /** Emitter `y * res + x` of a prepared plate sits at the sample point of cell `(x, y)`. */
  lemma SampleGrid(before: Plate, after: Plate, res: nat, x: nat, y: nat)
    requires Prepared(before, after, res)
    requires x < res && y < res
    ensures Index(res, y, x) < |after.emitters|
    ensures after.emitters[Index(res, y, x)].position == SamplePosition(before.positions, res, x, y)
  {
    IndexBound(res, res, y, x);
    IndexDivMod(res, y, x);
  }

  /** The sample points of a top plate lie strictly inside its cell, at its level. */
  lemma TopPlateSample(c: Config, row: nat, col: nat, depth: int, res: nat, x: nat, y: nat)
    requires c.plateWidth > 0.0 && x < res && y < res
    ensures var s := SamplePosition(TopPlate(c, row, col, depth).positions, res, x, y);
      && s.z == Level(c, depth)
      && ColLeft(c, col) < s.x < ColRight(c, col)
      && RowTop(c, row) < s.y < RowBottom(c, row)
  {
    var pw := c.plateWidth;
    WeightBounds(x, res);
    WeightBounds(y, res);
    ScaleMono(Weight(x, res), 0.0, pw);
    ScaleMono(Weight(x, res), 1.0, pw);
    ScaleMono(Weight(y, res), 0.0, pw);
    ScaleMono(Weight(y, res), 1.0, pw);
    var q := TopPlate(c, row, col, depth).positions;
    assert ColRight(c, col) - ColLeft(c, col) == pw;
    assert RowBottom(c, row) - RowTop(c, row) == pw;
    assert Sub(q.c1, q.c0) == Vec3(pw, 0.0, 0.0);
    assert Sub(q.c3, q.c0) == Vec3(0.0, pw, 0.0);
  }

  // ---------------------------------------------------------------------------
  // Photon seeding
  // ---------------------------------------------------------------------------

  /** Scale applied to energies so that accumulations keep precision. */
  const RealMultiplier: real := 1000.0

  /** `1 / res²`: the share of a light, or of an emitter, carried by one sample. */
  function LightResolution(res: nat): (r: real)
    requires res > 0
    ensures r > 0.0
  {
    1.0 / ((res * res) as real)
  }

  /** Photon `(x, y)` of a light: the light's position scaled by the plate width, shifted
      by `(x, y) * plateWidth / res - plateWidth / 2` in the plane, emitted along the
      light's normal with `1000 / res²` of its colour. */
  function SeedPhoton(c: Config, light: Photon, x: nat, y: nat): Photon
    requires c.textureWidth > 0
  {
    var tw := c.textureWidth as real;
    var half := c.plateWidth / 2.0;
    var shiftX := (x as real) * c.plateWidth / tw - half;
    var shiftY := (y as real) * c.plateWidth / tw - half;
    Photon(Add(Scale(light.position, c.plateWidth), Vec3(shiftX, shiftY, 0.0)), light.normal,
           Scale(light.color, RealMultiplier * LightResolution(c.textureWidth)))
  }

  /** Photon `r` of the grid seeded from `light`: row `r / res`, column `r % res`. */
  function SeedCell(c: Config, light: Photon, r: nat): Photon
    requires c.textureWidth > 0
  {
    SeedPhoton(c, light, r % c.textureWidth, r / c.textureWidth)
  }

  /** Photon `j` of the seeded list: grid `j / res²` belongs to light `j / res²`, and
      within it photon `j % res²` is in row `/ res`, column `% res`. */
  function SeedAt(c: Config, lights: seq<Photon>, j: nat): Photon
    requires c.textureWidth > 0 && j < |lights| * (c.textureWidth * c.textureWidth)
  {
    var n := c.textureWidth * c.textureWidth;
    SplitIndex(n, |lights|, j);
    SeedCell(c, lights[j / n], j % n)
  }

  /** The seeding loops: for each light, rows then columns. */
  method SeedPhotons(c: Config, lights: seq<Photon>) returns (photons: seq<Photon>)
    requires c.textureWidth > 0
    ensures |photons| == |lights| * (c.textureWidth * c.textureWidth)
    ensures forall j :: 0 <= j < |photons| ==> photons[j] == SeedAt(c, lights, j)
  {
    var res := c.textureWidth;
    var n := res * res;
    photons := [];
    for l := 0 to |lights|
      invariant |photons| == Index(n, l, 0) && |photons| <= |lights| * n
      invariant forall j :: 0 <= j < |photons| ==> photons[j] == SeedAt(c, lights, j)
    {
      for y := 0 to res
        invariant |photons| == Index(n, l, Index(res, y, 0)) && |photons| <= |lights| * n
        invariant forall j :: 0 <= j < |photons| ==> photons[j] == SeedAt(c, lights, j)
      {
        for x := 0 to res
          invariant |photons| == Index(n, l, Index(res, y, x)) && |photons| <= |lights| * n
          invariant forall j :: 0 <= j < |photons| ==> photons[j] == SeedAt(c, lights, j)
        {
          IndexBound(res, res, y, x);
          IndexBound(n, |lights|, l, Index(res, y, x));
          IndexDivMod(n, l, Index(res, y, x));
          IndexDivMod(res, y, x);
          ghost var before := photons;
          photons := photons + [SeedPhoton(c, lights[l], x, y)];
          assert photons[|before|] == SeedAt(c, lights, |before|);
          forall j | 0 <= j < |before|
            ensures photons[j] == SeedAt(c, lights, j)
          {
            assert photons[j] == before[j];
          }
        }
        IndexNextRow(res, y);
      }
      IndexNextRow(n, l);
    }
  }

  /** Sum of the energies of a list of photons. */
  function TotalColor(photons: seq<Photon>): Vec3
  {
    if photons == [] then Zero else Add(TotalColor(photons[..|photons| - 1]), photons[|photons| - 1].color)
  }

  /** `n` photons of colour `col` carry `n * col`. */
  lemma {:induction false} TotalOfEqual(photons: seq<Photon>, col: Vec3)
    requires forall j :: 0 <= j < |photons| ==> photons[j].color == col
    ensures TotalColor(photons) == Scale(col, |photons| as real)
  {
    if photons != [] {
      var init := photons[..|photons| - 1];
      TotalOfEqual(init, col);
      assert Scale(col, |photons| as real) == Add(Scale(col, |init| as real), col);
    }
  }

  /** Each light is split into `res²` photons whose energies add up to `1000` times its
      colour. */
  lemma SeedEnergy(c: Config, lights: seq<Photon>, photons: seq<Photon>, l: nat)
    requires c.textureWidth > 0 && l < |lights|
    requires |photons| == |lights| * (c.textureWidth * c.textureWidth)
    requires forall j :: 0 <= j < |photons| ==> photons[j] == SeedAt(c, lights, j)
    ensures var n := c.textureWidth * c.textureWidth;
      Index(n, l, n) <= |photons| && TotalColor(photons[Index(n, l, 0)..Index(n, l, n)]) == Scale(lights[l].color, RealMultiplier)
  {
    var res := c.textureWidth;
    var n := res * res;
    var col := Scale(lights[l].color, RealMultiplier * LightResolution(res));
    MulMono(l, |lights|, n);
    var grid := photons[Index(n, l, 0)..Index(n, l, n)];
    forall j | 0 <= j < |grid|
      ensures grid[j].color == col
    {
      IndexDivMod(n, l, j);
    }
    TotalOfEqual(grid, col);
    assert |grid| == n;
    SpreadBack(lights[l].color, RealMultiplier, n as real);
  }

  /** Splitting an energy into `count` equal shares and adding them back gives it again. */
  lemma SpreadBack(k: Vec3, m: real, count: real)
    requires count != 0.0
    ensures Scale(Scale(k, m * (1.0 / count)), count) == Scale(k, m)
  {
    ShareBack(k.x, m, count);
    ShareBack(k.y, m, count);
    ShareBack(k.z, m, count);
  }

  /** Splitting `a * m` into `N` equal shares and adding them back gives `a * m`. */
  lemma ShareBack(a: real, m: real, count: real)
    requires count != 0.0
    ensures (a * (m * (1.0 / count))) * count == a * m
  {
    var t := 1.0 / count;
    assert t * count == 1.0;
    assert (a * (m * t)) * count == (a * m) * (t * count);
  }

  /** Seeding photon `(x, y)` of light `l` lands at index `l * res² + y * res + x`. */
  lemma SeedGrid(c: Config, lights: seq<Photon>, photons: seq<Photon>, l: nat, x: nat, y: nat)
    requires c.textureWidth > 0 && l < |lights| && x < c.textureWidth && y < c.textureWidth
    requires |photons| == |lights| * (c.textureWidth * c.textureWidth)
    requires forall j :: 0 <= j < |photons| ==> photons[j] == SeedAt(c, lights, j)
    ensures var res := c.textureWidth;
      && Index(res * res, l, Index(res, y, x)) < |photons|
      && photons[Index(res * res, l, Index(res, y, x))] == SeedPhoton(c, lights[l], x, y)
  {
    var res := c.textureWidth;
    IndexBound(res, res, y, x);
    IndexBound(res * res, |lights|, l, Index(res, y, x));
    IndexDivMod(res * res, l, Index(res, y, x));
    IndexDivMod(res, y, x);
  }
}
