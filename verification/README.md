# lightshot — a model of the lightmap baker

lightshot is a small CPU photon tracer. It builds a block-terrain scene from a random
heightfield: one horizontal *top plate* per cell, plus one vertical *connector* plate for
each unit of depth difference between neighbouring cells. It then bakes a lightmap of
`res x res` samples on every plate and shows the result in an OpenGL viewer. The bake
works like this:

- every plate gets a grid of sample points (its *emitters*) and a cleared
  *receiver* buffer;
- a light source is split into `res²` photons;
- each pass propagates every photon of the wavefront to every sample that faces it and
  that no other plate hides. The receiver keeps what arrives, and the emitter stores the
  retransmitted share;
- between passes, the bright emitters become the next wavefront, lifted just above their
  plate, and are then cleared;
- at most four passes run;
- finally the receivers are clamped into RGB texels, and the plates are laid out as
  vertex and index buffers.

The Dafny modules follow the program's stages:

| module | file | what it holds |
|---|---|---|
| `Vectors` | `vectors.dfy` | vector algebra, the facing test, the segment/triangle intersection test and its geometric meaning |
| `Scene` | `scene.dfy` | scene configuration, photons, materials, plates, texels |
| `Rng` | `rng.dfy` | a random engine as the explicit stream of the samples its distributions draw |
| `Heightfield` | `heightfield.dfy` | the depths map generator |
| `Plates` | `plates.dfy` | connector tints and the plate builder |
| `PlateLaws` | `plate_laws.dfy` | what the builder produces: counts, top plates, connector geometry |
| `Samples` | `samples.dfy` | sample grids and the seeding of the first wavefront |
| `Transport` | `transport.dfy` | occlusion and one propagation pass |
| `Wavefront` | `wavefront.dfy` | re-emission between passes and the bake loop |
| `Output` | `output.dfy` | texel conversion and the vertex/index layout |
| `Resolution` | `resolution.dfy` | choosing the texture resolution from the command line |
| `Lightshot` | `lightshot.dfy` | the whole pipeline in program order |

The program's vectors of plates and photons are modelled as Dafny sequences. Each
program loop that fills or rewrites them is a method with a loop, proved against
a specification function (`GridPlates`, `Wave`, `Vertices`, `Indices`, `SeedAt`) or
against a relational predicate (`Prepared`, `Illuminated`, `Drained`). The two
`std::mt19937` engines, seeded 4 and 20, are parameters of type `Draws` (an infinite
stream holding one entry per distribution sample, in drawing order) with an explicit cursor. The energy law of a photon arriving at a
sample (distance decay, wavelength decay, arrival angle) is the parameter `received`.

## Model

| member | source | states |
|---|---|---|
| Vectors.Sub | main.cpp:156-174 | `Sub` and `Add` (`VecSub`, `VecAdd`) are inverse: adding the difference back to the subtrahend gives the minuend |
| Vectors.Scale | main.cpp:161-164 | scaling by 0 gives the zero vector; scaling by 1 is the identity |
| Vectors.Cross | main.cpp:176-184 | the cross product is orthogonal to both of its operands, as measured by `Dot` (`VecDot`) |
| Vectors.Facing | main.cpp:231-234 | `VecFacing` is `Dot(a, b) <= 0`; a zero vector faces every direction and every direction faces it |
| Vectors.FacingScaleInvariant | main.cpp:231-234 | the facing test gives the same answer for a direction and for any positive multiple of it, so testing the unnormalised ray direction is the same as testing the normalised one |
| Vectors.SegmentIntersectsTriangle | main.cpp:200-223 | the Möller–Trumbore test; it never reports a hit when the determinant is within ε of zero |
| Vectors.SegmentTestByWeights | main.cpp:200-223 | the intersection test answers true exactly when the determinant is not near zero and the computed weights satisfy u ≥ 0, v ≥ 0, u+v ≤ 1 and ε < t < 1+ε |
| Vectors.WeightsMeet | main.cpp:203-219 | the weights (u, v, t) the test computes put the point of the segment at parameter t on the triangle's plane at barycentric (u, v) |
| Vectors.MeetingWeightsAreComputed | main.cpp:203-219 | any (t, u, v) where the segment meets the triangle's plane are exactly the weights the test computes, so the solution is unique |
| Vectors.SegmentIntersectsTriangleMeaning | main.cpp:200-223 | the test reports a hit if and only if the determinant is not near zero and there is a point strictly past ε along the segment (and before 1+ε) that lies inside the triangle |
| Rng.Uniform | main.cpp:43-45 | a uniform integer distribution returns a value within its closed bounds |
| Rng.Trigger | main.cpp:43 | the trigger distribution returns a value in [0, 100] |
| Heightfield.CellDepth | main.cpp:51 | a cell consumes one or two draws; it is non-zero only when its trigger reaches 100 - depthRate; its depth lies in [-maxDepth, maxDepth] |
| Heightfield.GenerateDepthsMap | main.cpp:36-54 | the generated map is the row-by-row, cell-by-cell draw of a fresh engine |
| Heightfield.RowPrefixCells | main.cpp:48-51 | a drawn row has one entry per cell, and entry i is the cell drawn at the cursor that the first i cells leave |
| Heightfield.GridPrefixRows | main.cpp:46-52 | the drawn rows follow each other on the engine's cursor, each row starting where the previous row stopped |
| Heightfield.DepthsMapCells | main.cpp:36-54 | the map has height rows of width entries; every entry lies within [-maxDepth, maxDepth] and is 0 unless the trigger drawn for its cell reached 100 - depthRate |
| Heightfield.DepthsMapShape | main.cpp:46-52 | the map has height rows of width entries each |
| Heightfield.ZeroRateStillTriggers | main.cpp:43-44 | a depth rate of 0 still gives a depth to a cell whose trigger draws 100, because the trigger range [0, 100] has 101 values |
| Plates.GetColor | main.cpp:85-95 | white if and only if the first trigger is below the rate (one draw consumed); otherwise a second draw (two consumed) picks reddish above 66, greenish in (33, 66] and bluish at 33 or below |
| Plates.AppendConnectors | main.cpp:124-134 | the `d != depth2` walk appends exactly the `|depth2 - depth|` connectors of the walk, each with its own tint, and advances the tint engine accordingly |
| Plates.AppendCellPlates | main.cpp:113-149 | one cell appends its top plate, then its walk to the right neighbour, then its walk to the lower neighbour |
| Plates.AppendRowPlates | main.cpp:112-150 | one row appends the plates of its cells from left to right |
| Plates.GeneratePlates | main.cpp:98-153 | the builder returns the plates of all cells, row by row and left to right, with tints drawn from a fresh engine |
| PlateLaws.TopPlateShape | main.cpp:113-121 | the top plate of cell (row, col) (`TopPlate`) spans the cell's column and row bounds at the level depth × plateWidth, faces down (0, 0, -1), has the unit-square texture coordinates, a white material with the configured retransmission, and empty sample buffers |
| PlateLaws.ConnectorShape | main.cpp:126-147 | a connector (`Connector`) lies on the edge its cell shares with the right or lower neighbour, runs from level d1 to level d2, has a normal with zero z component, the unit-square texture coordinates, the drawn tint with the configured retransmission, and empty sample buffers |
| PlateLaws.CountTopAppend | main.cpp:117-121 | top plates are counted additively over concatenation |
| PlateLaws.RunCount | main.cpp:125-134 | a walk (`Run`) of k steps makes k connectors, none of them a top plate |
| PlateLaws.RunLevels | main.cpp:125-131 | connector i of a walk (`Run`) spans the levels of steps i and i+1 from the start depth toward the target depth |
| PlateLaws.RunOnEdge | main.cpp:122-149 | every connector lies on the edge that the cell shares with its right or lower neighbour, and carries the configured retransmission ratio |
| PlateLaws.RunNormals | main.cpp:122-147 | with a positive plate width, every connector's normal is +1 along the edge's axis when the neighbour's depth is greater, and -1 when it is smaller |
| PlateLaws.CellPlatesCount | main.cpp:117-149 | a cell yields its top plate first and then exactly CellSteps connectors |
| PlateLaws.RowPlatesLength | main.cpp:112-150 | a row of cols cells yields cols plus RowSteps plates |
| PlateLaws.RowPlatesTops | main.cpp:117-121 | a row of cols cells holds exactly cols top plates |
| PlateLaws.RowTopPlates | main.cpp:112-121 | every cell's top plate occurs among its row's plates |
| PlateLaws.GridTopPlates | main.cpp:108-121 | every cell's top plate occurs among the plates of the rows built so far |
| PlateLaws.CellsProduct | main.cpp:108-112 | counting cells row by row gives rows × width |
| PlateLaws.GridPlatesLength | main.cpp:108-151 | the first rows rows yield one plate per cell plus one per unit of neighbouring depth difference |
| PlateLaws.GridPlatesTops | main.cpp:108-151 | the first rows rows hold exactly one top plate per cell |
| PlateLaws.PlateCount | main.cpp:98-153 | with every depth read through `DepthAt` (the map's entry inside the map), the builder outputs width × height top plates and GridSteps connectors, i.e. |d2 - d1| per pair of neighbouring cells |
| PlateLaws.TopPlatesPresent | main.cpp:108-121 | for a map of the configured shape, each cell's top plate, at the cell's own depth (the depth `DepthAt` reads is the map's entry), is in the output |
| PlateLaws.FlatGridSteps | main.cpp:122-149 | a map of zero depths has no depth steps |
| PlateLaws.FlatMapPlateCount | main.cpp:98-153 | a flat map yields exactly width × height plates, all of them top plates |
| Samples.IndexDivMod | main.cpp:294-296 | row and column of a row-major index are recovered by / and % |
| Samples.SplitIndex | main.cpp:313-321 | every index below rows × width is the index of its row and column |
| Samples.WeightBounds | main.cpp:295-297 | every sample weight (i + 0.5)/res lies strictly inside (0, 1) |
| Samples.WeightIncreasing | main.cpp:295-297 | sample weights strictly increase with the sample number |
| Samples.Resized | main.cpp:283-287 | `resize` keeps the existing prefix and pads to the requested size with the fill value |
| Samples.PrepareSamples | main.cpp:280-302 | a prepared plate keeps its surface and colours, has res² cleared receivers (`Zeros`: all zero) and res² emitters, emitter y·res+x sitting at the sample point of cell (x, y) with zero energy |
| Samples.PrepareAll | main.cpp:280-302 | every plate is prepared independently of the others |
| Samples.SampleGrid | main.cpp:294-299 | emitter y·res+x of a prepared plate is at `SamplePosition`: corner 0 moved by the x weight along edge 0→1 and by the y weight along edge 0→3 |
| Samples.TopPlateSample | main.cpp:117-299 | every sample point of a top plate lies strictly inside its cell, at the cell's level |
| Samples.LightResolution | main.cpp:270 | the per-sample share 1/res² is positive |
| Samples.SeedPhotons | main.cpp:310-323 | the initial wavefront has |lights| × res² photons; photon j is the photon of light j / res² at row and column of j mod res² |
| Samples.TotalOfEqual | main.cpp:315 | n photons of the same colour carry n times that colour |
| Samples.SeedEnergy | main.cpp:315-321 | the res² photons of each light add up to 1000 times the light's colour |
| Samples.SeedGrid | main.cpp:316-320 | photon (x, y) of light l (`SeedPhoton`) is at index l·res² + y·res + x, emitted along the light's normal from the light's position shifted inside the plate-width square |
| Transport.IsOccluded | main.cpp:370-380 | the scan answers true exactly when some plate other than the lit plate has one of its two triangles (c0,c1,c2) or (c2,c3,c0) across the segment |
| Transport.OcclusionIgnoresSelf | main.cpp:374-375 | the lit plate itself never takes part in its occlusion test, whatever it holds |
| Transport.OcclusionIgnoresBuffers | main.cpp:372-379 | occlusion depends only on plate positions, so buffers written during a pass cannot change it |
| Transport.GainStep | main.cpp:357-394 | one more photon adds its received energy to a sample when it reaches the sample (`Reaches`: the ray direction is non-zero, faces the photon and crosses no other plate), and nothing otherwise |
| Transport.GainShare | main.cpp:392-393 | what an emitter accumulates over a wavefront is exactly the retransmission ratio times what its receiver accumulates |
| Transport.DarkGain | main.cpp:366-382 | a sample that no photon reaches gains nothing |
| Transport.ZeroShareGain | main.cpp:393 | with a zero retransmission ratio the emitter gains nothing |
| Transport.ProgressSkip | main.cpp:366-382 | a sample that the current photon does not reach is finished with that photon unchanged |
| Transport.ProgressAdd | main.cpp:391-393 | a reached sample is finished with the photon once its receiver gains the received energy and its emitter gains the retransmitted share |
| Transport.IlluminatePlate | main.cpp:355-396 | after the photon-by-sample loops, each receiver has gained the energy of every photon that reaches its sample and each emitter the retransmitted share; surface, sample positions, normals and colours are unchanged |
| Transport.Pass | main.cpp:353-398 | every plate of the pass is illuminated by the whole wavefront, each against the plates' positions |
| Transport.PassKeepsShape | main.cpp:353-398 | a pass keeps every plate's surface and the one-receiver-per-emitter pairing |
| Transport.NoRetransmissionKeepsEmitters | main.cpp:393 | with no retransmission on any plate, a pass leaves every emitter's energy as it was |
| Transport.DarkSampleUnchanged | main.cpp:366-382 | a sample that no photon of the wavefront reaches keeps its receiver and its emitter |
| Transport.RetransmittedShare | main.cpp:392-393 | each emitter's increase is the retransmission ratio times its receiver's increase |
| Wavefront.DrainPlate | main.cpp:403-412 | one plate sends the photons of its bright emitters, in emitter order, and all its emitter energies are cleared |
| Wavefront.Rebuild | main.cpp:401-413 | the next wavefront is the plates' re-emitted photons, plate by plate, and every plate is drained |
| Wavefront.PlateWaveLength | main.cpp:403-410 | a plate re-emits at most one photon per emitter |
| Wavefront.WaveLength | main.cpp:401-413 | with at most cap emitters per plate, n plates re-emit at most n × cap photons |
| Wavefront.PreparedWaveLength | main.cpp:401-413 | plates prepared at resolution res re-emit at most res² photons each |
| Wavefront.PlateWaveMembers | main.cpp:403-410 | a photon is in a plate's wave if and only if it is `Emitted` by one of the plate's emitters that `Emits` (its energy times 1/res² is `Bright`, every channel above ε); the `Emitted` photon leaves along the plate normal, lifted by 1e-7 along it, with the emitter energy times 1/res² |
| Wavefront.WaveMembers | main.cpp:401-413 | a photon is in the next wavefront if and only if it is `Emitted` by some emitter that `Emits` of some plate |
| Wavefront.DarkPlateWave | main.cpp:405 | emitters with no stored energy send nothing |
| Wavefront.DarkWave | main.cpp:401-413 | plates whose emitters hold no energy give an empty wavefront |
| Wavefront.NoRetransmissionEndsBake | main.cpp:393-411 | when nothing is retransmitted and the emitters start cleared, the wavefront after a pass is empty, so the bake stops after one pass |
| Wavefront.BakeStepKeepsShape | main.cpp:349-413 | a propagate-and-rebuild step keeps surfaces, buffer sizes and the receiver/emitter pairing |
| Wavefront.TraceExtend | main.cpp:349-413 | a record of bake steps grows by one step taken from its last state |
| Wavefront.Bake | main.cpp:349-414 | at most 4 passes run; no pass runs on an empty initial wavefront; fewer than 4 passes means the wavefront ran out; each pass propagates the current wavefront and rebuilds from the lit plates; surfaces and buffer sizes are kept |
| Output.Clamp01 | main.cpp:428-430 | the clamped value lies in [0, 1] and equals the input when the input is already inside |
| Output.Channel | main.cpp:428-430 | no energy or less gives 0, 1000 or more gives 255, and in between the channel is the floor of 255 × energy/1000 |
| Output.ChannelMonotone | main.cpp:428-430 | more energy never gives a darker channel |
| Output.ToRgbExtremes | main.cpp:428-431 | `ToRgb` converts channel by channel: a receiver without energy shows black; one with 1000 or more on every channel shows white |
| Output.ConvertColors | main.cpp:425-432 | the colour buffer is resized to res² texels; texel i is the RGB of receiver i, and texels past the receivers keep their old value or are black; everything else is unchanged |
| Output.ConvertAll | main.cpp:424-433 | every plate's texture holds the RGB of each of its receivers |
| Output.Wrap | main.cpp:439-449 | a wrapped 32-bit index is below 2³² and unchanged when it already fits |
| Output.CornerValues | main.cpp:442-445 | a corner contributes five values: three of position, two of texture coordinate |
| Output.Corners | main.cpp:441-446 | the first i corners of a plate contribute 5 × i values |
| Output.PlateIndexList | main.cpp:447-448 | the first j indices of a plate are j values |
| Output.WrapAdd | main.cpp:448-449 | adding to a wrapped offset wraps like adding to the unwrapped offset |
| Output.AppendCorners | main.cpp:441-446 | appends the values of the plate's four corners, in corner order |
| Output.AppendIndices | main.cpp:447-448 | appends the plate's six indices past its offset |
| Output.Layout | main.cpp:436-450 | the vertex buffer is every plate's corners in plate order; the index buffer is each plate's two triangles offset by 4 per plate, as 32-bit values |
| Output.VerticesLength | main.cpp:436-450 | there are 20 values per plate |
| Output.CornerOfPlate | main.cpp:441-446 | values 5i to 5i+4 of a plate's corner list are its corner i |
| Output.VertexOfCorner | main.cpp:440-446 | vertex 4k+i of the buffer (values 20k+5i to 20k+5i+4) is corner i of plate k |
| Output.IndicesLength | main.cpp:447-449 | there are 6 indices per plate |
| Output.IndexOfCorner | main.cpp:438-449 | while the vertex count fits in 32 bits, index 6k+j is vertex 4k + (0,1,2,2,3,0)[j] |
| Output.PlateIndexAt | main.cpp:438-448 | index j of a plate is its offset plus (0,1,2,2,3,0)[j], wrapped to 32 bits |
| Output.IndicesInRange | main.cpp:436-450 | while the vertex count fits in 32 bits, every index names a vertex of the buffer |
| Output.DrawnCorner | main.cpp:438-449 | while the vertex count fits in 32 bits, the vertex that index 6k+j names is corner (0,1,2,2,3,0)[j] of plate k |
| Resolution.ToUnsigned | main.cpp:243-245 | an int stored into an unsigned 32-bit variable is below 2³²; it is kept when it is non-negative and wraps by 2³² when it is negative |
| Resolution.BitAnd | main.cpp:246 | the bitwise and of two numbers is at most each of them |
| Resolution.BitAndSelf | main.cpp:246 | a number anded with itself is itself |
| Resolution.PowerOfTwoTest | main.cpp:246 | for positive n, n & (n-1) == 0 holds exactly when n is a power of two |
| Resolution.ChooseResolution | main.cpp:240-250 | the resolution is a positive power of two below 2³²; it is the argument when there is exactly one argument that is a non-zero power of two, and 16 otherwise |
| Lightshot.BuildScene | main.cpp:273-302 | the result is plate for plate the builder's output for the depths map drawn from the depth stream and the tints drawn from the tint stream, each prepared at resolution res (`SceneOf`); so there is one plate per cell plus one per unit of neighbouring depth difference, each with res² receivers and res² emitters |
| Lightshot.Publish | main.cpp:424-450 | every published plate keeps the baked plate's surface, receivers and emitters, and every texel is the RGB of its receiver; the vertex and index buffers are the layout of the plates, 20 values and 6 indices per plate |
| Lightshot.Render | main.cpp:237-450 | the whole bake: the resolution is chosen from the command line; the recorded passes form a bake trace that starts from the built scene (`SceneOf`, on `DemoScene`: 7 × 7 cells at the chosen texture width) and the seeded wavefront of `LightSources` (a single light pointing along +z; `Seeded`: photon j is `SeedAt` j); at most 4 passes run and fewer means the wavefront ran out; the published plates keep the surfaces and receivers of the trace's final state, every texel is the RGB of its receiver, and the buffers are the layout of those plates |

## Left out

- The OpenGL viewer: window, shaders, textures, texture filter toggle and key handling. It only displays the buffers that `Output.Layout` fills.
- Console output, the progress bar, its mutex and the computation timer.
- `std::execution::par_unseq`: the per-plate steps of a pass and of the texture conversion are modelled as a sequential loop over plates. Each step writes only its own plate and reads only the other plates' positions, which no step changes (`Transport.OcclusionIgnoresBuffers`).
- The mt19937 algorithm and the exact sampling of `uniform_int_distribution`: an engine is an arbitrary stream with one entry per distribution sample, and a distribution maps that entry into its range.
- Rng.Uniform: does not model how `uniform_int_distribution` turns engine outputs into a sample; it only states that the result is in range and that each sample advances the stream by one entry.
- Transport.Pass: the energy law (`VecDist`, `VecNorm`, the component-wise `VecMult( Vector3D, Vector3D )`, distance and wavelength decay, `pow`, the arrival angle and the material colour) is the `received` parameter, so nothing is proved about its value.
- Floating point: `double` is modelled as `real`, without rounding, and the `float` casts of the vertex buffer are left out.
- Epsilon is the program's value, the smallest positive normal double 2^-1022, taken exactly as a real; the intersection test and the re-emission threshold (`Wavefront.Bright`) both use it, but without rounding the comparisons against it are exact where the program's are rounded.
- Transport.Reaches: the normalisation of a zero ray direction, which yields NaNs in the program, is modelled as the photon not reaching the sample.
- `VecInPlane` is never called, so it is not modelled.
- `atoi`: the command-line argument arrives as the integer `atoi` returns. Its text parsing is not modelled.
- Samples.PrepareSamples: the product `textureWidth * textureWidth` is unbounded here. In the program it is a 32-bit unsigned product that wraps for resolutions of 65536 and above.
- Samples.SeedPhotons: requires a positive texture width. The program only calls it with the validated resolution.
- Output.ConvertColors: requires at most res² receivers. Writing more texels than the resized buffer holds would be out of bounds in the program.
- Output.IndexOfCorner: states the index value only while the vertex count fits in 32 bits. Past that, the indices wrap (`Output.Wrap`).
