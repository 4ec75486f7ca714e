# Voxel mesher and animation player, modelled in Dafny

This project models two small pieces of a voxel toolkit for Unity:

* **The mesher of `tools/convert.py`.** It turns a voxel model into a
  Collada mesh. Each block of the sparse grid gets one quad for every side
  whose neighbour is empty. The quads go into one `MaterialSet` per palette
  colour. Every set appends its vertices and normals to the same two lists,
  and keeps its own triangle-index list into them.
* **The runtime side of `unity3d/AnimateScript.cs`.**
  * `VoxelData` holds the voxel metadata loaded at run time. It offers three
    lookups into a flat byte array: `is_solid`, `is_surface` and `get`.
  * `AnimateScript` is the animation player. It shows one model of the
    current animation at a time and steps through the models as time
    passes. It loops forward or ping-pong, for a limited or unlimited number
    of passes.

Files:

| file | module | contents |
|---|---|---|
| `wrappers.dfy` | `Wrappers` | the `Option` type shared by the other modules |
| `mesh_geometry.dfy` | `MeshGeometry` | `swap_coord`, the six cube faces, the quad emitted for each face, face culling |
| `material_set.dfy` | `MaterialSets` | the shared buffers and the `MaterialSet` class with `add_quad` |
| `convert.dfy` | `Convert` | the block loop of `convert_file`, proved against functions of the grid |
| `voxel_data.dfy` | `VoxelMeta` | `is_solid`, `is_surface` and `get`, each both as written and corrected |
| `animation.dfy` | `Animation` | the frame-stepping state machine as functions on values |
| `animate_script.dfy` | `AnimateScripts` | the `AnimateScript` class: `on_loop`, `update_animation` and `set` as methods proved against `Animation` |

Modelling choices:

* The voxel grid of the converter is a `map<Vec3, nat>` from native
  coordinates to palette index, and `f.is_solid(p)` is `p in g`.
* The grid's iteration order is unknown, so it is an input `order` that
  lists every block once. The order-dependent results (the vertex list and
  the vertex numbers in each set's indices) are stated over that order.
* A set's flat index list is read two numbers at a time, as a list of
  entries (vertex number, normal). The normal part must name a position of
  the shared normal list that holds the entry's normal. `ColourEntries`
  gives the entries the set of one colour must hold after the blocks
  visited so far; the loop is proved to keep every set in step with it.
  `MeshNormals` gives the shared normal list itself: the normals of the
  emitted quads, each at its first occurrence in visiting order.
* The converter runs with scale 1 and a zero global offset, so every corner
  coordinate is an integer.
* In the player, a model of an animation is a `Frame(clip, index)`.
  `SetActive(true/false)` adds it to or removes it from the set `active`.
* The float time accumulator of `update_animation` is replaced by `ticks`,
  the number of passes of its `while` loop.
* A C# exception becomes a `thrown` flag (methods), a `Run.thrown` field
  (functions) or an `IndexOutOfRange` outcome (array reads). The state it
  leaves behind is modelled too.

## Model

| member | source | states |
|---|---|---|
| MeshGeometry.SwapCoord | tools/convert.py:29-31 | the swap is undone by negating x back and exchanging y and z again: (x, y, z) goes to (-x, z, y) |
| MeshGeometry.SwapCoordInvolution | tools/convert.py:29-31 | applying the axis swap twice gives back the original triple; (1, 2, 3) becomes (-1, 3, 2) |
| MeshGeometry.NormalIsSwappedOffset | tools/convert.py:132-177 | each side's normal is the swapped native direction of the neighbour it probes, and is one of the six axis normals |
| MeshGeometry.NormalInjective | tools/convert.py:133-173 | two sides have the same normal exactly when they are the same side |
| MeshGeometry.CanonicalNormalsCount | tools/convert.py:133-173 | there are exactly six axis normals, and every side's normal is one of them |
| MeshGeometry.QuadOf | tools/convert.py:133-177 | the quad passed to add_quad for a side carries that side's normal |
| MeshGeometry.QuadOnFace | tools/convert.py:116-177 | every corner of an emitted quad is a corner of the block's unit cube, on the face its normal points out of (x2 for +x, x1 for -x, and so on) |
| MeshGeometry.QuadCornersDistinct | tools/convert.py:131-177 | the four corners of an emitted quad are pairwise distinct |
| MeshGeometry.QuadWinds | tools/convert.py:57-62 | both triangles (a, b, c) and (c, d, a) wind counter-clockwise around the quad's normal |
| MeshGeometry.FaceIf | tools/convert.py:132-137 | one `if not f.is_solid(...)` test: no quad exactly when the neighbour is solid |
| MeshGeometry.FacesSix | tools/convert.py:131-177 | the block's quads are the six tests' results, concatenated in the source's order of native neighbours: z+1, z-1, y+1, y-1, x-1, x+1 |
| MeshGeometry.SideQuadsCount | tools/convert.py:132-177 | over any list of sides, one quad per side whose neighbour is not solid |
| MeshGeometry.FacesCount | tools/convert.py:132-177 | a block emits six quads minus one per solid neighbour |
| MeshGeometry.FaceEmittedIff | tools/convert.py:132-177 | a side's quad is emitted if and only if its native neighbour is not solid |
| MeshGeometry.IsolatedBlock | tools/convert.py:132-177 | a block with no solid neighbour emits six quads, covering all six axis normals |
| MeshGeometry.EnclosedBlock | tools/convert.py:132-177 | a block whose six neighbours are solid emits nothing |
| MaterialSets.FirstIndex | tools/convert.py:52 | `list.index`: the position holds the value and no earlier position does |
| MaterialSets.FirstIndexOfDistinct | tools/convert.py:52-55 | in a list without duplicates, `index` of element i is i |
| MaterialSets.Scalars | tools/convert.py:56 | the `extend` of add_quad appends twelve scalars per quad |
| MaterialSets.NewVertex | tools/convert.py:49-56 | after the append, vertex base + t reads back as corner t of the quad |
| MaterialSets.ScalarsDecode | tools/convert.py:49-56 | the append grows the buffer by 12 scalars; the four new vertices are the quad's corners, and every earlier vertex reads back unchanged |
| MaterialSets.QuadIndices | tools/convert.py:57-62 | 12 index entries; vertex part k is base + (0, 1, 2, 2, 3, 0)[k], and every normal part is the normal index |
| MaterialSets.AppendedVertex | tools/convert.py:49-62 | vertex part k of the new entries is in range of the grown vertex buffer, and reads back as corner (0, 1, 2, 2, 3, 0)[k] of the quad |
| MaterialSets.AppendedQuadRefersToCorners | tools/convert.py:49-62 | through the grown buffers, the new entries describe triangles (a, b, c) and (c, d, a), each vertex paired with the quad's normal |
| MaterialSets.QuadIndicesAt | tools/convert.py:57-62 | after an append, pair k of the new indices is vertex base + (0, 1, 2, 2, 3, 0)[k] with the normal index |
| MaterialSets.QuadIndicesValid | tools/convert.py:57-62 | appending in-range entries keeps every vertex part below the vertex count and every normal part below the normal count |
| MaterialSets.IndicesValidGrow | tools/convert.py:34-36 | since the buffers only grow, entries recorded by any set stay in range after other sets append |
| MaterialSets.QuadEntries | tools/convert.py:57-62 | the six (vertex, normal) entries of a quad: vertex base + (0, 1, 2, 2, 3, 0)[k], each with the quad's normal |
| MaterialSets.ResolvesLength | tools/convert.py:57-62 | an index list that reads as a list of entries has two indices per entry |
| MaterialSets.ResolvesAt | tools/convert.py:57-62 | pair m of such an index list holds entry m's vertex, and a normal position that holds entry m's normal |
| MaterialSets.ResolvesValid | tools/convert.py:57-62 | an index list reading as entries whose vertices are below the vertex count is in range of both buffers |
| MaterialSets.ResolvesUnique | tools/convert.py:50-55 | over a duplicate-free normal list, the entries determine the index list |
| MaterialSets.ResolvesGrow | tools/convert.py:34-36 | appending to the shared normal list never changes what recorded index pairs mean |
| MaterialSets.ResolvesAppend | tools/convert.py:57-62 | index lists appended one after the other read as their entries appended |
| MaterialSets.QuadResolves | tools/convert.py:57-62 | the twelve indices of one add_quad read as the quad's six entries |
| MaterialSets.ResolvesAppendQuad | tools/convert.py:47-62 | one add_quad extends the entries an index list reads as by exactly that quad's six |
| MaterialSets.DistinctBound | tools/convert.py:50-55 | a duplicate-free list drawn from a set is no longer than the set |
| MaterialSets.SharedBuffers.constructor | tools/convert.py:111-112 | the vertex and normal lists start empty |
| MaterialSets.MaterialSet.constructor | tools/convert.py:34-44 | a new set shares the given buffers, keeps its name and colour, and starts with no indices |
| MaterialSets.MaterialSet.AddQuad | tools/convert.py:47-62 | 12 scalars appended; the normal appended only when absent, so the list stays duplicate-free; 12 index entries appended, pointing at the new vertices and at the normal's position; all entries stay in range |
| Convert.Low | tools/convert.py:108-121 | the output cube from (x1, y1, z1) to (x2, y2, z2) is exactly the swap image of the block's native unit cell at p + offset: a point is a corner of the one iff its swap is a corner of the other, which is what makes `x_off -= 1` right |
| Convert.LowStep | tools/convert.py:115-121 | a native step between blocks moves their output cubes by the swapped step, so grid neighbours touch in the output |
| Convert.QuadsScalarsAppend | tools/convert.py:56 | the scalars of two runs of quads are the concatenation of the runs' scalars |
| Convert.MeshScalarsLength | tools/convert.py:114-177 | the blocks visited so far leave 12 scalars per emitted quad |
| Convert.ColoursOfAll | tools/convert.py:114-128 | the visited blocks meet only grid colours, and visiting every block meets all of them |
| Convert.ColourSeen | tools/convert.py:123-128 | the colour of every visited block has been met |
| Convert.ColourQuadsBound | tools/convert.py:123-177 | a colour no visited block has receives no quad; no colour receives more than all quads |
| Convert.RunEntriesBelow | tools/convert.py:49-62 | the entries of a run of quads name only the vertices that run appended |
| Convert.ColourEntriesBelow | tools/convert.py:114-177 | every entry of a colour's set names a vertex already in the shared buffer |
| Convert.ColourEntriesLength | tools/convert.py:123-177 | a colour's set holds six entries per quad of its colour, and none for a colour not met |
| Convert.SumQuadsStep | tools/convert.py:123-177 | one more block adds its quads to the per-colour sum exactly when its colour is summed |
| Convert.SumQuadsEmpty | tools/convert.py:106 | before any block, every colour has no quads |
| Convert.ColourQuadsPartition | tools/convert.py:123-177 | summed over distinct colours that include every visited block's colour, the per-colour quad counts equal all quads: each quad goes to exactly one set |
| Convert.GridColoursPartition | tools/convert.py:114-177 | summed over the grid's colours, each once, the sets' quad counts equal every quad of the grid |
| Convert.CanonicalAppend | tools/convert.py:54 | appending an axis normal keeps the normal list axis-only |
| Convert.QuadOfCanonical | tools/convert.py:133-173 | every emitted quad carries one of the six axis normals |
| Convert.RunEntries | tools/convert.py:57-62 | six entries per quad of a run |
| Convert.RunEntriesAppend | tools/convert.py:57-62 | the entries of two runs are the first run's followed by the second's, numbered on from where the first ends |
| Convert.RunEntriesAt | tools/convert.py:57-62 | entry k of quad j of a run is vertex base + 4j + (0, 1, 2, 2, 3, 0)[k] with quad j's normal |
| Convert.ScalarsStep | tools/convert.py:56 | one more quad appends its twelve scalars to the run's |
| Convert.EntriesStep | tools/convert.py:57-62 | one more quad appends its six entries, numbered after the run's vertices |
| Convert.FaceStep | tools/convert.py:49-62 | one more quad after a run: its first vertex is where the run's vertices end, and the vertices and entries both extend by that quad's |
| Convert.RunNormalsSpec | tools/convert.py:52-55 | a run of add_quad calls keeps the old normals as a prefix, never duplicates one, and the list then holds a normal iff it held it before or some quad of the run carries it |
| Convert.EmittedStep | tools/convert.py:114-177 | the normals emitted by the blocks ps + [p] are those of ps and those of p's quads |
| Convert.MeshNormalsSpec | tools/convert.py:114-177 | the normal list after visiting ps has no duplicate and holds a normal exactly when some quad of some visited block carries it |
| Convert.NormalsStep | tools/convert.py:52-55 | one more quad adds its normal to the run's list, appending it only if missing |
| Convert.MeshNormalsStep | tools/convert.py:114-177 | visiting a block adds its quads' normals, in order, to the list of the blocks before it |
| Convert.FirstBlockIsFirst | tools/convert.py:123-128 | the first block of colour c among ps is a block of ps with colour c, and no block before it has that colour |
| Convert.FirstBlockStep | tools/convert.py:123-128 | visiting a block keeps the first block of every colour already met, and makes the block the first of its colour when that colour is new |
| Convert.NamedStep | tools/convert.py:123-128 | after the lookup, every set is still named by the palette index of the first block of its colour |
| Convert.OwnSetTracked | tools/convert.py:131-177 | the set of the visited block's colour, holding its earlier entries followed by the block's, holds its colour's entries after the visit |
| Convert.AddAxisQuad | tools/convert.py:47-62 | add_quad for an axis normal: exactly the quad's 12 scalars appended; the normal appended only if missing, so the old normals stay a prefix and the list stays axis-only; the 12 new indices are add_quad's, and the set's index list reads as its old entries followed by the quad's six |
| Convert.EmitFace | tools/convert.py:132-137 | one guarded add_quad: the vertex buffer grows by exactly the scalars of the side's quad if emitted, and the set's index list reads as its entries followed by that quad's six; the normal list is the run's normals with this quad's added; the old normals and indices stay prefixes |
| Convert.EmitBlock | tools/convert.py:131-177 | the six tests in the source's order append exactly the scalars of the block's faces, and the set's index list then reads as its old entries followed by the six entries of each face, numbered from the old vertex count; the normal list is the old one with the faces' normals added in order |
| Convert.CountSolidSix | tools/convert.py:132-177 | the solid-neighbour count is the sum of the six neighbour tests |
| Convert.AdjacentPairQuads | tools/convert.py:132-177 | two blocks side by side emit ten quads: the shared face is culled on both |
| Convert.SetFor | tools/convert.py:123-128 | the set of the block's colour is reused if present; otherwise a fresh, empty set on the shared buffers is created, named by the block's palette index g[p] and keyed by its colour; no other key changes, and the sets keep what they track |
| Convert.KeysStep | tools/convert.py:123-128 | after the lookup, the keys of `sets` are exactly the colours of the blocks visited, this one included |
| Convert.ColoursStep | tools/convert.py:114-128 | one more block adds its colour to the colours met |
| Convert.SetValid | tools/convert.py:34-62 | a set whose index list reads as its colour's entries has its indices in range of the shared buffers |
| Convert.TrackedAdd | tools/convert.py:126-128 | a new empty set for a colour not met yet is in step with the blocks visited |
| Convert.EmitInto | tools/convert.py:131-177 | after the block's faces, the vertex list is the scalars of the visited blocks' quads in order; the block's set reads as its colour's entries with this block's appended; every other set keeps its index list, which still reads as its colour's entries; the normal list is the old one with the block's quads' normals added in order |
| Convert.BlockStep | tools/convert.py:114-177 | visiting a block appends its quads' scalars to the vertex list and their entries to its colour's entries |
| Convert.OtherSetTracked | tools/convert.py:131-177 | a set of another colour than the visited block, whose index list is unchanged, still reads as its colour's entries once the normal list has grown |
| Convert.VisitBlock | tools/convert.py:114-177 | one loop iteration keeps the loop state: one set per colour met, named after the first block of that colour; the normal list is `MeshNormals` of the visited blocks; the vertex list is the visited blocks' quads in order; the index list of the set of each colour c reads, pair by pair, as the entries of the quads that colour-c blocks emitted (vertex numbers, and the position of the quad's normal) |
| Convert.VisitAll | tools/convert.py:114-177 | the whole loop, from empty buffers and no sets, ends in the loop state over every block of the order |
| Convert.ConvertBlocks | tools/convert.py:106-177 | after the loop: exactly one set per colour of the grid, named after the first block of that colour; vertices hold the scalars of every emitted quad in visiting order, 12 per quad; the normal list is exactly the emitted quads' normals, each at its first occurrence in visiting order, so at most six; each set's index list reads as the entries of its colour's quads and has 12 indices per such quad |
| Convert.VisitedStart | tools/convert.py:106-112 | the loop state holds before the first block |
| Convert.VisitedAll | tools/convert.py:106-177 | the loop state over all blocks gives the final keys and counts, at most six normals, and a normal in the list iff some emitted quad carries it |
| VoxelMeta.FlatIndex | unity3d/AnimateScript.cs:90 | the cell index: never negative for non-negative coordinates, and inside the data for every cell of the box |
| VoxelMeta.BoxIndexInRange | unity3d/AnimateScript.cs:90 | y + z * y_size + x * y_size * z_size lies in [0, x_size * y_size * z_size) for a cell inside the box |
| VoxelMeta.InnerIndexInRange | unity3d/AnimateScript.cs:90 | y + z * y_size lies in [0, y_size * z_size) for y, z inside the box |
| VoxelMeta.FlatIndexRoundTrip | unity3d/AnimateScript.cs:90 | the flat index of a cell inside the box determines the cell |
| VoxelMeta.IsSolid | unity3d/AnimateScript.cs:85-92 | corrected is_solid: true only inside the box, and then exactly when the byte is not 255 |
| VoxelMeta.IsSolidAsWritten | unity3d/AnimateScript.cs:85-92 | is_solid as written raises only for a y at or above y_size, and reports solid only when x is below both x_size and y_size |
| VoxelMeta.AsWrittenAgrees | unity3d/AnimateScript.cs:85-92 | when x_size <= y_size and y < y_size the two versions agree |
| VoxelMeta.WideBoxCounterexample | unity3d/AnimateScript.cs:87 | in a 2x1x1 box, the solid cell (1, 0, 0) is reported empty by the code as written |
| VoxelMeta.AboveBoxCounterexample | unity3d/AnimateScript.cs:87-91 | in a 1x1x2 box, the point (0, 1, 0) above the box is reported solid by the code as written |
| VoxelMeta.AboveBoxThrows | unity3d/AnimateScript.cs:87-90 | in a 1x1x1 box, asking for (0, 1, 0) reads past the data and raises |
| VoxelMeta.IsSurface | unity3d/AnimateScript.cs:94-99 | a cell is not on the surface only when all six neighbours lie inside the box |
| VoxelMeta.IsSurfaceIff | unity3d/AnimateScript.cs:94-99 | on the surface if and only if some axis neighbour is not solid |
| VoxelMeta.BoxFaceIsSurface | unity3d/AnimateScript.cs:94-99 | every cell on a face of the box is on the surface |
| VoxelMeta.SurfaceScan | unity3d/AnimateScript.cs:96-98 | the short-circuit && chain: false only if every neighbour is solid as written, true only if one is not |
| VoxelMeta.IsSurfaceAsWritten | unity3d/AnimateScript.cs:94-99 | is_surface as written: false only if every neighbour is solid by the as-written is_solid, true only if some neighbour is not |
| VoxelMeta.ScanAgrees | unity3d/AnimateScript.cs:96-98 | where each as-written test is right, the chain reports whether some neighbour is not solid |
| VoxelMeta.SurfaceAsWrittenAgrees | unity3d/AnimateScript.cs:94-99 | when x_size <= y_size and y + 1 < y_size, is_surface as written equals the corrected one |
| VoxelMeta.TopFaceCounterexample | unity3d/AnimateScript.cs:94-99 | in an all-solid 3x3x3 box, the top-layer cell (1, 2, 1) is not on the surface according to the code as written |
| VoxelMeta.Get | unity3d/AnimateScript.cs:101-107 | get raises exactly when the flat index is outside the data |
| VoxelMeta.GetMatchesIsSolid | unity3d/AnimateScript.cs:101-107 | inside the box get never raises; it gives null for an empty cell and the palette entry for a solid one; with a fully resolved palette, non-null exactly when solid |
| Animation.OnLoop | unity3d/AnimateScript.cs:187-210 | a limited count drops by one and -1 never changes; on reaching 0 the index and direction stay; otherwise Forward restarts at 0, and PingPong turns round to Count-2 or 1 |
| Animation.Advance | unity3d/AnimateScript.cs:222-230 | inside the model list the playhead moves one model in its direction and nothing else changes; past either end, one loop is counted (a limited count drops by one, -1 stays) |
| Animation.AdvanceInRange | unity3d/AnimateScript.cs:222-230 | from a model of a playable clip, one step lands on a model of the clip |
| Animation.Frames | unity3d/AnimateScript.cs:219-233 | stepping frames never raises the loop count |
| Animation.Update | unity3d/AnimateScript.cs:212-217 | update_animation does nothing when the interval is 0 or no loops are left |
| Animation.FramesPlayable | unity3d/AnimateScript.cs:219-233 | on a playable clip (Forward with one model, PingPong with two) stepping never raises, and exactly the playhead's model stays shown |
| Animation.UpdatePlayable | unity3d/AnimateScript.cs:212-234 | the same for a whole update |
| Animation.UnlimitedStaysUnlimited | unity3d/AnimateScript.cs:189-233 | an unlimited clip (-1) stays unlimited |
| Animation.SingleModelPingPongThrows | unity3d/AnimateScript.cs:199-231 | a ping-pong clip of one model turns round to index -1 and raises |
| Animation.LastPassOverrun | unity3d/AnimateScript.cs:216-233 | an update that spans the end of the last pass takes loops from 1 through 0 to -1 (no limit) |
| Animation.FramesCorrected | unity3d/AnimateScript.cs:216-233 | corrected stepping: nothing happens once no loops are left, and the loop count never rises |
| Animation.UpdateCorrected | unity3d/AnimateScript.cs:212-234 | corrected update: does nothing when the interval is 0 |
| Animation.CorrectedLoopsBounded | unity3d/AnimateScript.cs:189-233 | with the correction, a limited loop count stays between 0 and its start |
| Animation.CorrectedAgreesUnlimited | unity3d/AnimateScript.cs:216-233 | the correction changes nothing for an unlimited clip |
| Animation.LastPassCorrected | unity3d/AnimateScript.cs:216-233 | on the overrun example, the corrected update stops on model 1 with no loops left |
| AnimateScripts.AnimateScript.constructor | unity3d/AnimateScript.cs:113-170 | after initialize: nothing shown, index 0, loops -1, not reversed |
| AnimateScripts.AnimateScript.HandleLoop | unity3d/AnimateScript.cs:187-210 | on_loop moves the playhead exactly as OnLoop, and changes nothing else |
| AnimateScripts.AnimateScript.StepFrame | unity3d/AnimateScript.cs:220-232 | one pass of the loop agrees with one step of Frames, including where it raises |
| AnimateScripts.AnimateScript.PlayFrames | unity3d/AnimateScript.cs:219-233 | the while loop ends in the state and outcome of Frames |
| AnimateScripts.AnimateScript.UpdateAnimation | unity3d/AnimateScript.cs:212-234 | with no animation set it raises; otherwise it ends as Update; a displayed playable clip stays displayed and never raises |
| AnimateScripts.AnimateScript.Set | unity3d/AnimateScript.cs:256-274 | ignored when disabled; an unknown name raises; the current name is a no-op; otherwise hides the shown model, starts the new clip at model 0 with its own loop count, not reversed, and shows model 0; raises on an out-of-range old index or an empty clip; keeps the display invariant |

## Left out

- Collada output is not modelled. This covers the effect and material objects of `MaterialSet.__init__`, `MaterialSet.apply` and everything after the block loop of `convert_file`. It is all calls into the external `collada` library and numpy.
- File input/output and the command line are not modelled: reading and parsing the `.vox` file, `is_file_changed`, `convert_meta`, `main` and the directory walk.
- The `voxmodel` parser is not part of this model. The grid is taken as a map from native coordinates to palette index, and `f.is_solid` is membership in that map.
- Only scale 1.0 and a zero global offset are modelled, the values `convert_file` fixes. Coordinates are integers, not floats.
- Convert.ConvertBlocks: the dictionary's iteration order is an input. The vertex list, the order of the normal list, the vertex and normal numbers in the sets and the block that names each set are stated for that order; the keys and the per-colour counts hold for any order.
- Each colour's palette index is taken to be in range of the palette, as the voxel model guarantees.
- MaterialSets.MaterialSet.AddQuad: Python 2 integer division `len(vertices) / 3` is exact, because the length is always a multiple of 3.
- The `VoxelData` constructor is not modelled. It loads a resource and matches materials by float colour equality. The palette is taken as given: 256 entries, each a material or null.
- The `x_offset`, `y_offset` and `z_offset` fields of `VoxelData` are not modelled, since the modelled queries never read them.
- VoxelMeta.IsSolid, VoxelMeta.Get: the index is computed on unbounded integers. C# computes it in 64-bit arithmetic, whose overflow for huge sizes is not modelled.
- Unity engine effects are not modelled: `Instantiate`, the static metadata cache of `get_meta`, `update_editor` and `Update`'s editor branch, `OnEnable`/`OnDisable`. `SetActive` becomes membership in the `active` set.
- AnimateScripts.AnimateScript.constructor: it stands for the state after `initialize`, with one instance per animation name. `set`'s call to `initialize` is therefore a no-op in the model.
- AnimateScripts.AnimateScript.UpdateAnimation: the float `time_value` accumulation is replaced by `ticks`, the number of passes of the `while` loop. What is left out:
  - how many passes a given frame time yields;
  - a negative interval;
  - the reset of `time_value` in `set`.
- AnimateScripts.AnimateScript.HandleLoop: its `int` argument is not modelled. Every path that reads it first overwrites it, as long as the loop type is Forward or PingPong.
- Loop types other than Forward and PingPong are not modelled. C# enums can hold other values, but the inspector only offers these two.
- `anim == new_anim` is reference equality in C#. It is modelled by comparing the names the instances were set under, since each name has its own instance.
- AnimateScripts.AnimateScript.Set: `anim_name` is `animName` in the model.
- AnimateScripts.AnimateScript.HandleLoop: `on_loop` with a null `anim` is not modelled (it would raise NullReferenceException). Its only caller has already read `anim`.
- The class `AnimateScript` follows `update_animation` as written (Animation.Update). The corrected behaviour below is stated on values only.

## Findings

| source | as written | input that shows it | evidently intended | confidence | as-written member | corrected member |
|---|---|---|---|---|---|---|
| unity3d/AnimateScript.cs:87 | the fourth bounds test is `x >= y_size` | 2x1x1 box, cell (1, 0, 0): solid but reported empty. 1x1x2 box with bytes [255, 0], point (0, 1, 0): reported solid. 1x1x1 box, point (0, 1, 0): raises IndexOutOfRangeException | `y >= y_size` | high; not executed | VoxelMeta.IsSolidAsWritten, VoxelMeta.WideBoxCounterexample, VoxelMeta.AboveBoxCounterexample, VoxelMeta.AboveBoxThrows | VoxelMeta.IsSolid, VoxelMeta.AsWrittenAgrees |
| unity3d/AnimateScript.cs:94-99 | is_surface calls the faulty is_solid | all-solid 3x3x3 box, cell (1, 2, 1) on the top layer: reported not on the surface | true, since the cell above is outside the box | high; not executed | VoxelMeta.IsSurfaceAsWritten, VoxelMeta.TopFaceCounterexample | VoxelMeta.IsSurface, VoxelMeta.IsSurfaceIff, VoxelMeta.BoxFaceIsSurface |
| unity3d/AnimateScript.cs:216-233 | `loops == 0` is tested only before the `while` loop | Forward clip of 2 models, loops 1, at model 1, an update spanning two intervals: loops goes from 1 to 0, then to -1 (no limit), and the clip restarts | stop stepping once loops reaches 0 | medium; not executed | Animation.LastPassOverrun | Animation.UpdateCorrected, Animation.CorrectedLoopsBounded, Animation.LastPassCorrected |
