/** The whole bake, in the order the program runs it: choose the resolution, build the
    demo scene (depths map, then plates), lay out the sample grids, seed the first
    wavefront from the light source, run the passes, write the textures and fill the
    viewer's buffers. */
module Lightshot {
  import opened Vectors
  import opened Scene
  import opened Rng
  import opened Heightfield
  import opened Plates
  import opened PlateLaws
  import opened Samples
  import opened Transport
  import opened Wavefront
  import opened Output
  import opened Resolution

  /** The demo scene: 7 by 7 cells, depths in [-2, 2] for a quarter of the cells, a tint on
      30 percent of the connectors, unit plates, half of the received energy
      retransmitted. */
  function DemoScene(res: nat): (c: Config)
    ensures c.textureWidth == res && c.width == 7 && c.height == 7
  {
    Config(7, 7, 2, 25, 30, 1.0, res, 0.5, 10.0, Vec3(0.8, 0.9, 1.0))
  }

  /** The single light source, pointing up, its energy split over the pass budget. */
  function LightSources(): (lights: seq<Photon>)
    ensures |lights| == 1 && lights[0].normal == Vec3(0.0, 0.0, 1.0)
  {
    [Photon(Vec3(1.01, 3.23, -2.34), Vec3(0.0, 0.0, 1.0), Scale(Vec3(1.0, 0.95, 0.9), 0.2 / (MaxRenderingPass as real)))]
  }

  /** `plates` are the plates built from the depths map that `depthDraws` gives, tinted
      from `tintDraws`, each prepared for resolution `res`. */
  ghost predicate SceneOf(res: nat, depthDraws: Draws, tintDraws: Draws, plates: seq<Plate>)
  {
    var c := DemoScene(res);
    var built := GridPlates(c, GridPrefix(depthDraws, c, c.height).0, c.height, tintDraws).plates;
    |plates| == |built| && forall k :: 0 <= k < |built| ==> Prepared(built[k], plates[k], res)
  }

  /** `photons` is the first wavefront: every light split into `res * res` photons, light
      by light, row by row. */
  ghost predicate Seeded(res: nat, photons: seq<Photon>)
    requires res > 0
  {
    && |photons| == |LightSources()| * (res * res)
    && forall j :: 0 <= j < |photons| ==> photons[j] == SeedAt(DemoScene(res), LightSources(), j)
  }

  /** Builds the demo scene's plates and lays out their sample grids at resolution
      `res`. */
  method BuildScene(res: nat, depthDraws: Draws, tintDraws: Draws) returns (plates: seq<Plate>)
    ensures SceneOf(res, depthDraws, tintDraws, plates)
    ensures var c := DemoScene(res);
      |plates| == c.width * c.height + GridSteps(c, GridPrefix(depthDraws, c, c.height).0, c.height)
    ensures forall k :: 0 <= k < |plates| ==> |plates[k].receivers| == |plates[k].emitters| == res * res
  {
    var c := DemoScene(res);
    var depthsMap := GenerateDepthsMap(c, depthDraws);
    DepthsMapShape(depthDraws, c);
    var built := GeneratePlates(c, depthsMap, tintDraws);
    PlateCount(c, depthsMap, tintDraws);
    plates := PrepareAll(built, res);
  }

  /** Writes the textures and fills the viewer's buffers. */
  method Publish(baked: seq<Plate>, res: nat) returns (plates: seq<Plate>, vertices: seq<real>, indices: seq<nat>)
    requires forall k :: 0 <= k < |baked| ==> |baked[k].receivers| == res * res
    ensures |plates| == |baked|
    ensures forall k :: 0 <= k < |plates| ==>
              && SameSurface(baked[k], plates[k])
              && plates[k].receivers == baked[k].receivers
              && plates[k].emitters == baked[k].emitters
              && |plates[k].receivers| == res * res
              && |plates[k].colors| == res * res
              && forall i :: 0 <= i < res * res ==> plates[k].colors[i] == ToRgb(plates[k].receivers[i])
    ensures vertices == Vertices(plates, |plates|) && |vertices| == 20 * |plates|
    ensures indices == Indices(|plates|) && |indices| == 6 * |plates|
  {
    plates := ConvertAll(baked, res);
    vertices, indices := Layout(plates);
    VerticesLength(plates, |plates|);
    IndicesLength(|plates|);
  }

  /** Runs the bake for the command line (`argc`, and `argument` as `atoi` reads the single
      argument), the random streams of the depths map and of the connector tints (two
      engines with their own fixed seeds), and the energy law `received`. The ghost
      `states`, `lits` and `waves` record the plates, the lit plates and the wavefront of
      every pass. */
  method Render(argc: int, argument: int, depthDraws: Draws, tintDraws: Draws, received: Received)
    returns (res: nat, plates: seq<Plate>, passes: nat, vertices: seq<real>, indices: seq<nat>,
             ghost states: seq<seq<Plate>>, ghost lits: seq<seq<Plate>>, ghost waves: seq<seq<Photon>>)
    ensures res == ChooseResolution(argc, argument) && res > 0
    ensures passes <= MaxRenderingPass
    ensures Trace(received, res, passes, states, lits, waves)
    ensures SceneOf(res, depthDraws, tintDraws, states[0])
    ensures Seeded(res, waves[0])
    ensures var c := DemoScene(res);
      |plates| == c.width * c.height + GridSteps(c, GridPrefix(depthDraws, c, c.height).0, c.height)
    ensures passes < MaxRenderingPass ==> waves[passes] == []
    ensures |plates| == |states[passes]|
    ensures forall k :: 0 <= k < |plates| ==>
              && SameSurface(states[passes][k], plates[k])
              && plates[k].receivers == states[passes][k].receivers
              && |plates[k].receivers| == res * res
              && |plates[k].colors| == res * res
              && forall i :: 0 <= i < res * res ==> plates[k].colors[i] == ToRgb(plates[k].receivers[i])
    ensures vertices == Vertices(plates, |plates|) && |vertices| == 20 * |plates|
    ensures indices == Indices(|plates|) && |indices| == 6 * |plates|
  {
    res := ChooseResolution(argc, argument);
    var prepared := BuildScene(res, depthDraws, tintDraws);
    var photons := SeedPhotons(DemoScene(res), LightSources());
    var baked, remaining;
    baked, remaining, passes, states, lits, waves := Bake(prepared, photons, received, res);
    plates, vertices, indices := Publish(baked, res);
  }
}
