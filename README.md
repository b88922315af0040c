# Mushroom generator: verified model of the Blender add-on's generation core

The add-on `addon/mushroom_generator_addon.py` registers one Blender operator,
`MUSHROOMGENERATOR_OT_add_mushroom`. Its `execute` seeds Python's random
stream with `SEED`, and for one of four species identifiers it runs
`generate_mushroom` and renames the new object after the species.
`generate_mushroom` builds a cube with bmesh and reshapes it (steps 1 to 4).
Every later step edits the mesh by hard-coded index ranges:

- step 5 widens the stem base ring, vertices 24 to 27, by 1.5 in x and y;
- step 6 appends the stem material and gives it face 10 and faces 18 to 25;
- step 7 builds the cap material's node tree and gives it faces 0 to 9 and 11 to 17;
- step 8 multiplies the z of cap vertices {0, 2, 4, 6, 8, 9, 10, 11} by a sampled
  height factor;
- step 9 multiplies their x and y by a sampled width factor;
- a last step multiplies every coordinate of every vertex by a sampled size.

The cap tree is a chain from a texture-coordinate node through a mapping node,
a Voronoi texture of scale 60, a LESS_THAN math node and a color ramp. The
chain ends in the base color of the default Principled BSDF.

Nine `random.uniform(a, b)` calls, in a fixed order, supply all sampled values.

The project models this in six modules:

- `PyRanges` (ranges.dfy) models Python's `range` with a positive step. This is
  what every index loop walks.
- `Geometry` (geometry.dfy) defines vertex positions and the "multiply these
  coordinates of these vertices" edit, as a function on sequences.
- `Sampler` (sampler.dfy) defines:
  - `random.uniform` over a draw `u` in [0, 1), which is `a + (b - a) * u`;
  - the interval of each of the nine `random.uniform` calls, named once (`CapHeightDraw`, ...);
  - the nine ordered draws;
  - the seeded stream, as a class whose position each call advances.
- `Mesh` (mesh.dfy) has the class `MushroomMesh`. It holds the 28 vertex
  positions and 26 face material slots as arrays. Each step is a method with a
  `for` loop over the same index range as the source. Each method is proved
  against a specification function on the old contents.
- `CapShader` (shader.dfy) has the class `NodeTree`, whose `New`, `Set…` and
  `Connect` methods append to its node and link lists. It also builds the cap
  pattern and proves it is a five-link chain with no cycle.
- `Generator` (generator.dfy) has `GenerateMushroom` and `Execute`. It also
  proves where each vertex ends up after the whole pipeline.

Three points of the code shape the model:

- All four species run the same recipe. The code has no per-species parameter
  tables: `generate_boletus` and the other three only call `generate_mushroom`.
- Each sampled value lies in a closed interval.
- The stem thickness is drawn in step 3. The model therefore draws it before
  the index-range steps, and hands it to the topology that stands for steps 1 to 4.

## Model

| member | source | states |
|---|---|---|
| PyRanges.Range | addon/mushroom_generator_addon.py:172 | `range(start, stop, step)` for a positive step yields only values in `[start, stop)` |
| PyRanges.RangeIncreasing | addon/mushroom_generator_addon.py:172 | a range is strictly increasing, so a loop over it visits no index twice |
| PyRanges.UnitRangeMembers | addon/mushroom_generator_addon.py:112 | `x` is in `range(start, stop)` exactly when `start <= x < stop` (both directions) |
| PyRanges.UnitRangeSet | addon/mushroom_generator_addon.py:123 | the set of values of `range(start, stop)` is the half-open interval |
| PyRanges.EvenRangeToSeven | addon/mushroom_generator_addon.py:172 | `range(0, 7, 2)` is exactly `[0, 2, 4, 6]` |
| Geometry.Scale | addon/mushroom_generator_addon.py:182-183 | scaling by the chosen axes leaves the other coordinates as they are, and a factor of 1 changes nothing |
| Geometry.ScaledAt | addon/mushroom_generator_addon.py:112-114 | an index-range edit keeps the vertex count |
| Geometry.ScaleCompose | addon/mushroom_generator_addon.py:194-197 | scaling a vertex by `f` and then by `g` is scaling it by `f * g` |
| Geometry.ScaleCommute | addon/mushroom_generator_addon.py:172-186 | two scalings of one vertex commute |
| Geometry.ScaledAtUnion | addon/mushroom_generator_addon.py:172-175 | two loops with one factor over disjoint index sets equal one edit over their union |
| Geometry.ScaledAtCommute | addon/mushroom_generator_addon.py:168-186 | two index-range edits commute, whatever their index sets, axes and factors |
| Geometry.ScaledAtInverse | addon/mushroom_generator_addon.py:112-114 | an edit by a non-zero factor is undone by the edit with the reciprocal factor |
| Geometry.UniformScaleNorm | addon/mushroom_generator_addon.py:194-197 | scaling all three coordinates by `k` multiplies the squared distance from the origin by `k * k` |
| Sampler.Uniform | addon/mushroom_generator_addon.py:141 | `random.uniform(a, b)` lies in `[a, b)` when `a < b`, equals `a` when `a == b`, and lies in `(b, a]` when `b < a` |
| Sampler.Stretch | addon/mushroom_generator_addon.py:141 | `(b - a) * u` lies between 0 (included) and the width (excluded), on the width's side |
| Sampler.UniformInjective | addon/mushroom_generator_addon.py:141 | over a non-degenerate interval, two draws give the same value exactly when they are equal |
| Sampler.SampleParameters | addon/mushroom_generator_addon.py:86-191 | the nine ordered draws give parameters inside their closed intervals: stem thickness [0.1, 0.3], randomness [0.5, 1], threshold [0.2, 0.45], red 1, green [0, 0.05], blue 0, cap height [0.1, 1], cap width [0.9, 2.5], size [0.045, 0.09] |
| Sampler.SampleFollowsDrawTable | addon/mushroom_generator_addon.py:86-191 | the k-th parameter is the k-th draw scaled to the k-th interval of the source's call order |
| Sampler.FirstDrawsDetermine | addon/mushroom_generator_addon.py:238 | two streams that agree on their first nine draws (the same seed) give identical parameters |
| Sampler.DistinctDrawsDistinctParameter | addon/mushroom_generator_addon.py:86-191 | a parameter with a non-degenerate interval changes exactly when its draw changes |
| Sampler.Swapped | addon/mushroom_generator_addon.py:86-191 | exchanging two draws keeps the stream's length |
| Sampler.DrawOrderMatters | addon/mushroom_generator_addon.py:86-191 | consuming two draws in the other order hands parameter `i` the draw meant for `j`, and changes it |
| Sampler.RandomStream.Seeded | addon/mushroom_generator_addon.py:238 | `random.seed` puts the stream at its first draw |
| Sampler.RandomStream.NextUniform | addon/mushroom_generator_addon.py:141 | one call consumes exactly the next draw and returns `Uniform` of it |
| Mesh.ThickenedBase | addon/mushroom_generator_addon.py:110-114 | step 5 keeps the vertex count; `Mesh.ThickenBaseTouches` gives each vertex |
| Mesh.CapHeightScaled | addon/mushroom_generator_addon.py:168-175 | step 8 keeps the vertex count; `Mesh.CapHeightTouches` gives each vertex |
| Mesh.CapWidthScaled | addon/mushroom_generator_addon.py:177-186 | step 9 keeps the vertex count; `Mesh.CapWidthTouches` gives each vertex |
| Mesh.OverallScaled | addon/mushroom_generator_addon.py:194-197 | overall scaling keeps the vertex count |
| Mesh.AssignedAt | addon/mushroom_generator_addon.py:122-124 | a slot assignment keeps the face count |
| Mesh.ReferenceSlots | addon/mushroom_generator_addon.py:121-166 | 26 faces; a face has the stem slot exactly when it is a stem face and the cap slot exactly when it is a cap face |
| Mesh.BaseRingExactly | addon/mushroom_generator_addon.py:112 | `range(24, 28)` visits exactly the base ring {24, 25, 26, 27} |
| Mesh.EvenRimExactly | addon/mushroom_generator_addon.py:172 | `range(0, 7, 2)` visits exactly {0, 2, 4, 6} |
| Mesh.UpperRimExactly | addon/mushroom_generator_addon.py:174 | `range(8, 12)` visits exactly {8, 9, 10, 11} |
| Mesh.CapRimExactly | addon/mushroom_generator_addon.py:172-175 | the two cap loops together visit exactly {0, 2, 4, 6, 8, 9, 10, 11} and share no index |
| Mesh.StemFacesExactly | addon/mushroom_generator_addon.py:122-124 | face 10 plus `range(18, 26)` are exactly the stem faces |
| Mesh.CapFacesExactly | addon/mushroom_generator_addon.py:163-166 | `range(0, 10)` and `range(11, 18)` together are exactly the cap faces |
| Mesh.LowerCapFacesExactly | addon/mushroom_generator_addon.py:163 | `range(0, 10)` visits exactly faces 0 to 9 |
| Mesh.UpperCapFacesExactly | addon/mushroom_generator_addon.py:165 | `range(11, 18)` visits exactly faces 11 to 17 |
| Mesh.FacePartition | addon/mushroom_generator_addon.py:121-166 | stem faces and cap faces are disjoint and together are exactly faces 0 to 25 |
| Mesh.ThickenBaseTouches | addon/mushroom_generator_addon.py:110-114 | base thickening multiplies x and y of vertices 24 to 27 by 1.5; their z and every other vertex are unchanged |
| Mesh.CapHeightTouches | addon/mushroom_generator_addon.py:169-175 | cap height multiplies only the z of {0, 2, 4, 6, 8, 9, 10, 11}; their x and y and every other vertex are unchanged |
| Mesh.CapWidthTouches | addon/mushroom_generator_addon.py:178-186 | cap width multiplies x and y of the same vertices by one factor; every z and every other vertex are unchanged |
| Mesh.CapHeightWidthCommute | addon/mushroom_generator_addon.py:168-186 | cap height and cap width commute |
| Mesh.BaseAndCapDisjoint | addon/mushroom_generator_addon.py:112-186 | the base ring and the cap rim share no vertex |
| Mesh.OverallScaleEvery | addon/mushroom_generator_addon.py:191-197 | overall scaling multiplies every coordinate of every vertex by the same factor and keeps the vertex count |
| Mesh.OverallScaleDistance | addon/mushroom_generator_addon.py:191-197 | overall scaling by `f` multiplies every vertex's squared distance from the origin by `f * f` |
| Mesh.OverallScaleCompose | addon/mushroom_generator_addon.py:194-197 | two overall scalings equal one by the product of their factors |
| Mesh.SlotsAfterAssignment | addon/mushroom_generator_addon.py:121-166 | whatever slots the topology left, the stem and then the cap assignment give faces 10 and 18 to 25 slot 0 and every other face slot 1 |
| Mesh.SlotAssignmentsCommute | addon/mushroom_generator_addon.py:121-166 | the two slot assignments touch disjoint faces, so their order does not matter |
| Mesh.AssignedAtUnion | addon/mushroom_generator_addon.py:163-166 | two slot loops with the same slot equal one assignment over the union |
| Mesh.MushroomMesh.constructor | addon/mushroom_generator_addon.py:46-52 | the mesh holds the 28 positions and 26 slots that the topology produced, in fresh arrays |
| Mesh.MushroomMesh.ScaleVertices | addon/mushroom_generator_addon.py:112-114 | a loop over strictly increasing in-range indices leaves the vertex array equal to `ScaledAt` of its old contents over the visited set |
| Mesh.MushroomMesh.AssignSlots | addon/mushroom_generator_addon.py:123-124 | a slot loop leaves the slot array equal to `AssignedAt` of its old contents over the visited set |
| Mesh.MushroomMesh.ThickenBase | addon/mushroom_generator_addon.py:109-114 | step 5 leaves the vertices equal to `ThickenedBase` of the old ones; slots untouched |
| Mesh.MushroomMesh.ScaleCapHeight | addon/mushroom_generator_addon.py:168-175 | step 8's two loops leave the vertices equal to `CapHeightScaled` of the old ones |
| Mesh.MushroomMesh.ScaleCapWidth | addon/mushroom_generator_addon.py:177-186 | step 9's two loops leave the vertices equal to `CapWidthScaled` of the old ones |
| Mesh.MushroomMesh.ScaleOverall | addon/mushroom_generator_addon.py:188-197 | the loop over all vertices leaves them equal to `OverallScaled` of the old ones |
| Mesh.MushroomMesh.AssignStemSlots | addon/mushroom_generator_addon.py:121-124 | face 10 and the loop over 18 to 25 write slot 0 to exactly the stem faces |
| Mesh.MushroomMesh.AssignCapSlots | addon/mushroom_generator_addon.py:162-166 | the loops over 0 to 9 and 11 to 17 write slot 1 to exactly the cap faces |
| CapShader.CapNodes | addon/mushroom_generator_addon.py:132-150 | the five added nodes, none of them a BSDF or an output, so they do not change which BSDF the lookup finds |
| CapShader.CapLinks | addon/mushroom_generator_addon.py:152-156 | five links from the first added node to the BSDF, each into input 0 of the node the next one leaves |
| CapShader.FindKind | addon/mushroom_generator_addon.py:156 | the lookup returns the first node of the kind, and `None` exactly when there is none |
| CapShader.RankIncreasesAlongPath | addon/mushroom_generator_addon.py:152-156 | along any walk in a graph with a rank function, the rank strictly increases |
| CapShader.RankedIsAcyclic | addon/mushroom_generator_addon.py:152-156 | a graph with a rank function has no cycle |
| CapShader.CapPatternIsChain | addon/mushroom_generator_addon.py:132-156 | the cap tree gains exactly five links forming a chain: TexCoord output 3 into Mapping input 0, then Mapping, Voronoi, LESS_THAN math and color ramp into the BSDF's input 0; Voronoi scale 60 and the sampled values sit on sockets 5, 1 and the first ramp stop |
| CapShader.CapTreeAcyclic | addon/mushroom_generator_addon.py:152-156 | the whole cap tree, default link included, has no cycle |
| CapShader.NodeTree.Default | addon/mushroom_generator_addon.py:129 | a material with nodes enabled starts with a Principled BSDF wired to the material output |
| CapShader.NodeTree.New | addon/mushroom_generator_addon.py:132-137 | `nodes.new` appends one unset node of the kind, returns its index, and keeps the links |
| CapShader.NodeTree.SetInput | addon/mushroom_generator_addon.py:140-145 | setting a socket's value changes only that socket of that node |
| CapShader.NodeTree.SetOperation | addon/mushroom_generator_addon.py:136 | setting the math operation changes only that node's operation |
| CapShader.NodeTree.SetFirstStop | addon/mushroom_generator_addon.py:150 | setting the first ramp stop changes only that node's stop |
| CapShader.NodeTree.Connect | addon/mushroom_generator_addon.py:152-156 | `links.new` appends one link and keeps the nodes |
| CapShader.BuildCapPattern | addon/mushroom_generator_addon.py:126-156 | step 7 appends the five pattern nodes and the five chain links into the existing BSDF, and consumes draws 2 to 6 in source order |
| CapShader.AddPatternNodes | addon/mushroom_generator_addon.py:132-150 | creating and setting the nodes appends exactly the five pattern nodes with the five sampled values |
| CapShader.CreatePatternNodes | addon/mushroom_generator_addon.py:132-137 | the five `nodes.new` calls append the pattern nodes, the math node already LESS_THAN |
| CapShader.SetPatternValues | addon/mushroom_generator_addon.py:140-150 | Voronoi scale 60, then five draws stored on sockets 5 and 1 and on the first ramp stop, in order |
| CapShader.WirePattern | addon/mushroom_generator_addon.py:152-156 | the five `links.new` calls append the chain links and keep the nodes |
| CapShader.FindKindInPrefix | addon/mushroom_generator_addon.py:156 | appending nodes does not change which BSDF the lookup finds |
| Generator.Shaped | addon/mushroom_generator_addon.py:109-186 | steps 5, 8 and 9 keep the vertex count |
| Generator.Sculpted | addon/mushroom_generator_addon.py:109-197 | steps 5, 8, 9 and the overall scaling keep the vertex count |
| Generator.SculptedBaseVertex | addon/mushroom_generator_addon.py:110-197 | a base-ring vertex ends at `(1.5 x s, 1.5 y s, z s)` for size `s` |
| Generator.ShapedRimVertex | addon/mushroom_generator_addon.py:168-186 | before sizing, a cap-rim vertex is `(x w, y w, z h)` for cap width `w` and height `h` |
| Generator.SculptedRimVertex | addon/mushroom_generator_addon.py:168-197 | a cap-rim vertex ends at `(x w s, y w s, z h s)` |
| Generator.SculptedOtherVertex | addon/mushroom_generator_addon.py:191-197 | every other vertex is only scaled by the size |
| Generator.SculptedSizeCompose | addon/mushroom_generator_addon.py:188-197 | the size is applied last and to every vertex, so sampling size `s k` gives the mesh for size `s` scaled once more by `k` |
| Generator.CapStepsCommute | addon/mushroom_generator_addon.py:168-186 | doing cap width before cap height would give the same finished mesh |
| Generator.MushroomObject.constructor | addon/mushroom_generator_addon.py:43 | the new object is named "Mushroom", holds the mesh and has no materials |
| Generator.MushroomObject.AppendMaterial | addon/mushroom_generator_addon.py:119 | appending a material gives it the next slot index and keeps the rest |
| Generator.ProducedFrom | addon/mushroom_generator_addon.py:39-206 | what one generation yields: parameters from the nine draws, the sculpted vertices, the reference slots, `[stem, cap]` materials and the reference cap tree |
| Generator.FacesWearTheirMaterial | addon/mushroom_generator_addon.py:116-166 | in a generated mushroom every stem face wears the stem material and every other face the cap material |
| Generator.RemainingDrawsValid | addon/mushroom_generator_addon.py:238 | every draw left in the seeded stream lies in [0, 1) |
| Generator.DrawsInOrder | addon/mushroom_generator_addon.py:86-191 | values drawn one after another in source order are the sampler's parameters |
| Generator.DressStem | addon/mushroom_generator_addon.py:109-124 | steps 5 and 6: base thickened, stem material in slot 0, stem faces assigned |
| Generator.DressCap | addon/mushroom_generator_addon.py:126-166 | step 7: a fresh cap tree equal to the reference chain, cap material in slot 1, cap faces assigned, five draws consumed |
| Generator.ShapeCap | addon/mushroom_generator_addon.py:168-197 | each factor is drawn and then applied: height, width, size |
| Generator.GenerateMushroom | addon/mushroom_generator_addon.py:39-206 | consumes exactly nine draws; the object "Mushroom" gets the sculpted vertices, the reference slot partition, `[stem, cap]` materials and the reference cap tree, all determined by those draws |
| Generator.SpeciesName | addon/mushroom_generator_addon.py:252-270 | the if/elif dispatch on the species identifier; `Generator.SpeciesNamesFollowItems` states what it matches |
| Generator.SpeciesNamesFollowItems | addon/mushroom_generator_addon.py:252-270 | exactly the four identifiers of the `SPECIES` property are matched, each to its own label |
| Generator.SpeciesNamesDistinct | addon/mushroom_generator_addon.py:252-270 | different species get different names |
| Generator.Execute | addon/mushroom_generator_addon.py:237-273 | a mushroom is created exactly when the species matches; it is renamed to the species label and is what the seeded draws determine |

## Left out

- Steps 1 to 4 are not modelled, because they are bmesh library calls whose index layout the source does not show. They are the cube, the insets, the extrusions, the deletions and the normal-based translations. `GenerateMushroom` takes them as a function from the stem thickness to 28 positions and 26 slots.
- Scene plumbing is left out, because it does not change the mesh, slots, materials or cap tree a generation produces:
  - creating the mesh and linking the object and collection;
  - making the object active and calling `to_mesh`/`free`;
  - the Subdivision modifier;
  - registration, the menu entry and `poll`.
- Generator.Execute: the names it promises are the requested ones, and Blender's name registry is not modelled. In Blender a name that is already taken gets a numeric suffix, so from the second mushroom of a species on, the object is named e.g. "Boletus.001" and the materials "toadstool_stem.001" and "toadstool_cap.001". The same registry decides which object `bpy.data.objects['Mushroom']` finds once a "Mushroom" already exists; the model takes the renamed object `bpy.context.object` to be the generated one.
- Generator.Execute: the error path of linking is not modelled. `addon/mushroom_generator_addon.py:45` links the new object into the active collection. When that collection is "Mushroom", the second link at `addon/mushroom_generator_addon.py:254` (or 259, 264, 269) raises `RuntimeError`, and the rename never runs. The model always links and renames.
- Python's Mersenne Twister and float rounding are left out. The stream is an abstract sequence of reals in [0, 1), chosen by the seed, and coordinates are reals.
- `Execute` and `GenerateMushroom` require at least nine draws. The real stream is unbounded.
- Blender's default socket values and the default node names are not modelled. A node records only the settings the source gives it. The BSDF is found by kind (`FindKind`) rather than by the name "Principled BSDF".
- `CapShader.NodeTree.Connect` always appends a link. Blender's `links.new` replaces an existing link into an occupied input socket, but no input the source connects is occupied.
- The viewport colors (`diffuse_color`) and the `use_nodes` flag are recorded in `Material`. Nothing is proved about them beyond their being appended in order.
- src/script.py is not part of this model. It is an earlier prototype made only of bpy/bmesh calls.
