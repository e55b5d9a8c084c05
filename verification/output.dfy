/** What the bake hands to the viewer: the received energy of every sample as an RGB
    texel, and the plates as a vertex buffer (position and texture coordinate of every
    corner) with an index buffer of two triangles per plate. */
module Output {
  import opened Vectors
  import opened Scene
  import opened Samples

  // ---------------------------------------------------------------------------
  // Texels
  // ---------------------------------------------------------------------------

  /** `x` clamped to the unit interval. */
  function Clamp01(x: real): (r: real)
    ensures 0.0 <= r <= 1.0
    ensures 0.0 <= x <= 1.0 ==> r == x
  {
    if x < 0.0 then 0.0 else if x > 1.0 then 1.0 else x
  }

  /** One colour channel: the energy over `RealMultiplier`, clamped to [0, 1], scaled to 255
      and truncated to a byte. */
  function Channel(v: real): (r: Byte)
    ensures v <= 0.0 ==> r == 0
    ensures v >= RealMultiplier ==> r == 255
    ensures 0.0 <= v <= RealMultiplier ==> r as real <= v / RealMultiplier * 255.0 < r as real + 1.0
  {
    var scaled := Clamp01(v / RealMultiplier) * 255.0;
    scaled.Floor as Byte
  }

  /** More energy never shows darker. */
  lemma ChannelMonotone(v: real, w: real)
    requires v <= w
    ensures Channel(v) <= Channel(w)
  {
    var a, b := v / RealMultiplier, w / RealMultiplier;
    assert a <= b;
    assert Clamp01(a) <= Clamp01(b);
    assert Clamp01(a) * 255.0 <= Clamp01(b) * 255.0;
  }

  const Black: Rgb := Rgb(0, 0, 0)

  /** The texel of a receiver, channel by channel. */
  function ToRgb(c: Vec3): Rgb
  {
    Rgb(Channel(c.x), Channel(c.y), Channel(c.z))
  }

  /** A receiver that gathered no energy shows black; one that gathered `RealMultiplier` or
      more on every channel shows white. */
  lemma ToRgbExtremes(c: Vec3)
    ensures c == Zero ==> ToRgb(c) == Black
    ensures c.x >= RealMultiplier && c.y >= RealMultiplier && c.z >= RealMultiplier ==> ToRgb(c) == Rgb(255, 255, 255)
  {
  }

  /** Writes the texture of one plate: the colour buffer is resized to `res * res` texels
      (kept texels stay, new ones are black) and texel `i` becomes the colour of
      receiver `i`. */
  method ConvertColors(plate: Plate, res: nat) returns (plate': Plate)
    requires |plate.receivers| <= res * res
    ensures SameSurface(plate, plate')
    ensures plate'.receivers == plate.receivers && plate'.emitters == plate.emitters
    ensures |plate'.colors| == res * res
    ensures forall i :: 0 <= i < |plate.receivers| ==> plate'.colors[i] == ToRgb(plate.receivers[i])
    ensures forall i :: |plate.receivers| <= i < res * res ==>
              plate'.colors[i] == if i < |plate.colors| then plate.colors[i] else Black
  {
    var colors := Resized(plate.colors, res * res, Black);
    for i := 0 to |plate.receivers|
      invariant |colors| == res * res
      invariant forall j :: 0 <= j < i ==> colors[j] == ToRgb(plate.receivers[j])
      invariant forall j :: i <= j < res * res ==> colors[j] == if j < |plate.colors| then plate.colors[j] else Black
    {
      colors := colors[i := ToRgb(plate.receivers[i])];
    }
    plate' := plate.(colors := colors);
  }

  /** Writes the texture of every plate. */
  method ConvertAll(plates: seq<Plate>, res: nat) returns (plates': seq<Plate>)
    requires forall k :: 0 <= k < |plates| ==> |plates[k].receivers| == res * res
    ensures |plates'| == |plates|
    ensures forall k :: 0 <= k < |plates| ==>
              && SameSurface(plates[k], plates'[k])
              && plates'[k].receivers == plates[k].receivers
              && plates'[k].emitters == plates[k].emitters
              && |plates'[k].colors| == res * res
              && forall i :: 0 <= i < res * res ==> plates'[k].colors[i] == ToRgb(plates[k].receivers[i])
  {
    plates' := plates;
    for k := 0 to |plates|
      invariant |plates'| == |plates|
      invariant forall j :: 0 <= j < k ==>
                  && SameSurface(plates[j], plates'[j])
                  && plates'[j].receivers == plates[j].receivers
                  && plates'[j].emitters == plates[j].emitters
                  && |plates'[j].colors| == res * res
                  && forall i :: 0 <= i < res * res ==> plates'[j].colors[i] == ToRgb(plates[j].receivers[i])
    {
      var p := ConvertColors(plates[k], res);
      plates' := plates'[k := p];
    }
  }

  // ---------------------------------------------------------------------------
  // Vertex and index buffers
  // ---------------------------------------------------------------------------

  /** Indices are 32-bit unsigned integers. */
  const U32: int := 0x1_0000_0000

  function Wrap(v: nat): (r: nat)
    ensures r < U32
    ensures v < U32 ==> r == v
  {
    v % U32
  }

  /** The two triangles of a plate, as corners of the plate: (0, 1, 2) and (2, 3, 0). */
  const PlateIndices: seq<nat> := [0, 1, 2, 2, 3, 0]

  /** The five values of corner `i` of a plate: its position, then its texture
      coordinate. */
  function CornerValues(plate: Plate, i: nat): (r: seq<real>)
    requires i < 4
    ensures |r| == 5
  {
    var p := plate.positions.Corner(i);
    var t := plate.textures.Corner(i);
    [p.x, p.y, p.z, t.u, t.v]
  }

  /** The values of the first `i` corners of a plate. */
  function Corners(plate: Plate, i: nat): (r: seq<real>)
    requires i <= 4
    ensures |r| == 5 * i
  {
    if i == 0 then [] else Corners(plate, i - 1) + CornerValues(plate, i - 1)
  }

  /** The vertex values of the first `n` plates. */
  function Vertices(plates: seq<Plate>, n: nat): seq<real>
    requires n <= |plates|
  {
    if n == 0 then [] else Vertices(plates, n - 1) + Corners(plates[n - 1], 4)
  }

  /** The first `j` indices of a plate whose vertices start at `offset`. */
  function PlateIndexList(offset: nat, j: nat): (r: seq<nat>)
    requires j <= 6
    ensures |r| == j
  {
    if j == 0 then [] else PlateIndexList(offset, j - 1) + [Wrap(offset + PlateIndices[j - 1])]
  }

  /** The index values of the first `n` plates; plate `k` uses vertices `4 * k` to
      `4 * k + 3`, offsets counted in 32 bits. */
  function Indices(n: nat): seq<nat>
  {
    if n == 0 then [] else Indices(n - 1) + PlateIndexList(Wrap(4 * (n - 1)), 6)
  }

  /** Adding to a wrapped value wraps like adding to the value. */
  lemma WrapAdd(a: nat, b: nat)
    ensures Wrap(Wrap(a) + b) == Wrap(a + b)
  {
    var q := a / U32;
    assert a == q * U32 + Wrap(a);
    assert a + b == q * U32 + (Wrap(a) + b);
  }

  /** Appends the four corners of a plate, position then texture coordinate, to the
      vertex buffer. */
  method AppendCorners(vertices: seq<real>, plate: Plate) returns (vertices': seq<real>)
    ensures vertices' == vertices + Corners(plate, 4)
  {
    vertices' := vertices;
    for i := 0 to 4
      invariant vertices' == vertices + Corners(plate, i)
    {
      var p := plate.positions.Corner(i);
      var t := plate.textures.Corner(i);
      assert [p.x, p.y, p.z] + [t.u, t.v] == CornerValues(plate, i);
      vertices' := vertices' + [p.x, p.y, p.z] + [t.u, t.v];
    }
  }

  /** Appends the six indices of a plate whose vertices start at `offset`. */
  method AppendIndices(indices: seq<nat>, offset: nat) returns (indices': seq<nat>)
    ensures indices' == indices + PlateIndexList(offset, 6)
  {
    indices' := indices;
    for j := 0 to 6
      invariant indices' == indices + PlateIndexList(offset, j)
    {
      indices' := indices' + [Wrap(offset + PlateIndices[j])];
    }
  }

  /** Fills the vertex buffer (five values per corner, four corners per plate) and the
      index buffer (six indices per plate, the offset advancing by four). */
  method Layout(plates: seq<Plate>) returns (vertices: seq<real>, indices: seq<nat>)
    ensures vertices == Vertices(plates, |plates|)
    ensures indices == Indices(|plates|)
  {
    vertices, indices := [], [];
    var offset: nat := 0;
    for k := 0 to |plates|
      invariant vertices == Vertices(plates, k)
      invariant indices == Indices(k)
      invariant offset == Wrap(4 * k)
    {
      assert Vertices(plates, k + 1) == Vertices(plates, k) + Corners(plates[k], 4);
      assert Indices(k + 1) == Indices(k) + PlateIndexList(Wrap(4 * k), 6);
      vertices := AppendCorners(vertices, plates[k]);
      indices := AppendIndices(indices, offset);
      WrapAdd(4 * k, 4);
      offset := Wrap(offset + 4);
    }
  }

  /** Four corners of five values per plate. */
  lemma {:induction false} VerticesLength(plates: seq<Plate>, n: nat)
    requires n <= |plates|
    ensures |Vertices(plates, n)| == 20 * n
  {
    if n > 0 {
      VerticesLength(plates, n - 1);
    }
  }

  /** A slice inside the first part of a concatenation. */
  lemma SliceLeft<T>(a: seq<T>, b: seq<T>, lo: nat, hi: nat)
    requires lo <= hi <= |a|
    ensures (a + b)[lo..hi] == a[lo..hi]
  {
  }

  /** A slice inside the second part of a concatenation. */
  lemma SliceRight<T>(a: seq<T>, b: seq<T>, lo: nat, hi: nat)
    requires lo <= hi <= |b|
    ensures (a + b)[|a| + lo..|a| + hi] == b[lo..hi]
  {
  }

  /** Values `5 * i` to `5 * i + 4` of a plate's vertices are its corner `i`. */
  lemma {:induction false} CornerOfPlate(plate: Plate, m: nat, i: nat)
    requires i < m <= 4
    ensures Corners(plate, m)[5 * i..5 * i + 5] == CornerValues(plate, i)
  {
    if i < m - 1 {
      CornerOfPlate(plate, m - 1, i);
      SliceLeft(Corners(plate, m - 1), CornerValues(plate, m - 1), 5 * i, 5 * i + 5);
    } else {
      SliceRight(Corners(plate, m - 1), CornerValues(plate, m - 1), 0, 5);
    }
  }

  /** Vertex `4 * k + i` holds corner `i` of plate `k`. */
  lemma {:induction false} VertexOfCorner(plates: seq<Plate>, n: nat, k: nat, i: nat)
    requires n <= |plates| && k < n && i < 4
    ensures 20 * k + 5 * i + 5 <= |Vertices(plates, n)|
    ensures Vertices(plates, n)[20 * k + 5 * i..20 * k + 5 * i + 5] == CornerValues(plates[k], i)
  {
    VerticesLength(plates, n);
    VerticesLength(plates, n - 1);
    var prefix, last := Vertices(plates, n - 1), Corners(plates[n - 1], 4);
    if k < n - 1 {
      VertexOfCorner(plates, n - 1, k, i);
      SliceLeft(prefix, last, 20 * k + 5 * i, 20 * k + 5 * i + 5);
    } else {
      CornerOfPlate(plates[k], 4, i);
      SliceRight(prefix, last, 5 * i, 5 * i + 5);
    }
  }

  /** Six indices per plate. */
  lemma {:induction false} IndicesLength(n: nat)
    ensures |Indices(n)| == 6 * n
  {
    if n > 0 {
      IndicesLength(n - 1);
    }
  }

  /** While the vertex count fits in 32 bits, index `6 * k + j` names corner
      `PlateIndices[j]` of plate `k`: plate `k` draws triangles (c0, c1, c2) and
      (c2, c3, c0) of its own four vertices. */
  lemma {:induction false} IndexOfCorner(n: nat, k: nat, j: nat)
    requires k < n && j < 6 && 4 * n <= U32
    ensures 6 * k + j < |Indices(n)|
    ensures Indices(n)[6 * k + j] == 4 * k + PlateIndices[j]
  {
    IndicesLength(n);
    IndicesLength(n - 1);
    if k < n - 1 {
      IndexOfCorner(n - 1, k, j);
    } else {
      PlateIndexAt(Wrap(4 * k), 6, j);
    }
  }

  /** Index `j` of a plate is corner `PlateIndices[j]` past the plate's offset. */
  lemma {:induction false} PlateIndexAt(offset: nat, m: nat, j: nat)
    requires j < m <= 6
    ensures PlateIndexList(offset, m)[j] == Wrap(offset + PlateIndices[j])
  {
    if j < m - 1 {
      PlateIndexAt(offset, m - 1, j);
    }
  }

  /** While the vertex count fits in 32 bits, every index names a vertex of the buffer. */
  lemma IndicesInRange(plates: seq<Plate>)
    requires 4 * |plates| <= U32
    ensures forall m :: 0 <= m < |Indices(|plates|)| ==> 5 * Indices(|plates|)[m] + 5 <= |Vertices(plates, |plates|)|
  {
    var n := |plates|;
    IndicesLength(n);
    VerticesLength(plates, n);
    forall m | 0 <= m < |Indices(n)|
      ensures 5 * Indices(n)[m] + 5 <= |Vertices(plates, n)|
    {
      var k, j := m / 6, m % 6;
      assert m == 6 * k + j;
      IndexOfCorner(n, k, j);
    }
  }

  /** While the vertex count fits in 32 bits, index `6 * k + j` points at the five values
      of corner `PlateIndices[j]` of plate `k`. */
  lemma DrawnCorner(plates: seq<Plate>, k: nat, j: nat)
    requires k < |plates| && j < 6 && 4 * |plates| <= U32
    ensures 6 * k + j < |Indices(|plates|)|
    ensures var v := Indices(|plates|)[6 * k + j];
            5 * v + 5 <= |Vertices(plates, |plates|)|
            && Vertices(plates, |plates|)[5 * v..5 * v + 5] == CornerValues(plates[k], PlateIndices[j])
  {
    IndexOfCorner(|plates|, k, j);
    VertexOfCorner(plates, |plates|, k, PlateIndices[j]);
  }
}
