/** The baker's data model: scene configuration, plates (surface patches), photons,
    materials and 8-bit colours. */
module Scene {
  import opened Vectors

  /** Immutable configuration of one bake. */
  datatype Config = Config(
    width: nat,               // cells per row
    height: nat,              // rows
    maxDepth: nat,            // largest depth magnitude of a cell
    depthRate: nat,           // percent chance that a cell gets a random depth
    colorRate: nat,           // percent chance that a connector gets a tint
    plateWidth: real,         // edge length of a cell
    textureWidth: nat,        // sample-grid resolution per plate edge
    retransmission: real,     // share of received energy that is re-emitted
    decayDistance: real,      // wavelength-decay distance
    decay: Vec3)              // wavelength-decay floor

  /** The four corners (or texture coordinates) of a plate, in winding order. */
  datatype Quad = Quad(c0: Vec3, c1: Vec3, c2: Vec3, c3: Vec3)
  {
    function Corner(i: nat): Vec3
      requires i < 4
    {
      if i == 0 then c0 else if i == 1 then c1 else if i == 2 then c2 else c3
    }
  }

  /** Every plate maps its corners onto the unit texture square. */
  datatype TexQuad = TexQuad(t0: Vec2, t1: Vec2, t2: Vec2, t3: Vec2)
  {
    function Corner(i: nat): Vec2
      requires i < 4
    {
      if i == 0 then t0 else if i == 1 then t1 else if i == 2 then t2 else t3
    }
  }

  const UnitSquare: TexQuad := TexQuad(Vec2(0.0, 0.0), Vec2(1.0, 0.0), Vec2(1.0, 1.0), Vec2(0.0, 1.0))

  datatype Material = Material(color: Vec3, retransmission: real)

  /** A packet of light: where it is, the direction it was emitted along, its energy. */
  datatype Photon = Photon(position: Vec3, normal: Vec3, color: Vec3)

  newtype Byte = x: int | 0 <= x < 256

  datatype Rgb = Rgb(r: Byte, g: Byte, b: Byte)

  /** A planar quadrilateral patch with its sample buffers: `emitters` holds the fixed
      sample positions and the re-emittable energy, `receivers` the accumulated energy,
      `colors` the final texture. */
  datatype Plate = Plate(
    positions: Quad,
    textures: TexQuad,
    normal: Vec3,
    material: Material,
    emitters: seq<Photon>,
    receivers: seq<Vec3>,
    colors: seq<Rgb>)

  /** Two plates with the same geometry, normal and material. */
  predicate SameSurface(p: Plate, q: Plate)
  {
    p.positions == q.positions && p.textures == q.textures && p.normal == q.normal && p.material == q.material
  }
}
