# Animated 3D figures: a Dafny model

`3d_figures.js` is a small WebGL page. It builds three solids and animates them:

- an octahedron that spins and bobs up and down;
- a dodecahedron that spins;
- a pyramid that spins.

Each factory uploads three things to the GPU:

- a flat vertex array;
- a per-vertex colour array, made by repeating each face colour;
- a `Uint16` index list of triangles.

It then returns a descriptor object. The descriptor holds the recorded counts, a model-view matrix, a timestamp and an `update` closure. `run` does three things:

- asks the browser for the next frame;
- calls `draw`, which clears the screen and issues one `drawElements` per object;
- calls every object's `update`.

This project models:

- the mesh descriptors that the three factories build;
- the `update` closures, including the octahedron's bobbing oscillator;
- the `draw` / `run` frame loop.

The modules follow the structure of the program:

- `Meshes` (`meshes.dfy`): the descriptor datatype and the properties a descriptor can have. It also holds the colour-expansion loop the factories share, `ExpandColors`, proved against `Flatten(Repeat(faceColors, k))`, and the index arithmetic about that expansion.
- `Figures` (`figures.dfy`): the literal vertex, colour and index tables of the three solids, and the descriptor each factory assembles from them.
- `Animation` (`animation.dfy`): the animated part of a scene object. `SceneObject` is a class whose `Update` changes the matrix, the timestamp and the bobbing direction in place. `Update` is proved against the pure step `Tick`.
  - The model-view matrix is the history of `mat4.translate` / `mat4.rotate` calls made on it since `mat4.create()`.
  - The one matrix entry the update reads back, `m[13]`, is written `VerticalOffset`. It is the sum of the vertical parts of the translations.
  - The oscillator is `Bob(up, offset)`, and its step is `BobStep`.
- `Scene` (`scene.dfy`): the three factories as a whole, each returning a fresh `SceneObject`.
- `FrameLoop` (`frame.dfy`): `draw` and `run` over an abstract GL context. The context records the calls that matter, in order: the frame request, the clear, each `drawElements` with its mode, count and matrix, and each update. `Draw` and `Run` are proved against the value-level description `FrameEvents`.

Modelling decisions:

- **Clock.** `Date.now()` becomes a parameter `now`. `run` passes each object's update its own clock reading, `clock[i]`, because the source reads the clock once per update.
- **Rotation angle.** The angle is recorded as a number of turns. The source's angle is `2π·turns`.
- **Where the code and its comments disagree, the model follows the code.** Two examples:
  - the dodecahedron colour loop repeats each colour 5 times, although its comment speaks of 3;
  - the dodecahedron factory records `nColors` as the vertex count, 21, while its colour loop uploads 60 colours. The documented invariant of one colour per vertex therefore does not hold for it; `Figures.DodecahedronMesh` proves the mismatch.
- **The observed height.** `VerticalOffset` models `m[13]` as the sum of the vertical translations. This is exact while the matrix's y column is (0, 1, 0), for example for rotations about the y axis. The octahedron's rotation axis is chosen by the caller, outside this file.
- **Argument passing.** `run` and its update loop take `objs` as a list of distinct objects. This is an assumption about the caller, which is not part of this file. Each factory returns a fresh object literal (modelled by the `fresh` clause of the `Scene` methods), so a list of three factory results meets it.

## Model

| member | source | states |
|---|---|---|
| Meshes.ExpandColors | 3d_figures.js:132-136 | the colour loop leaves exactly the channels of each face colour repeated `k` times, face by face, in order |
| Meshes.RepeatAt | 3d_figures.js:132-136 | repeating `k` times gives k entries per face colour, and entry `i` is face colour `i / k` |
| Meshes.FlattenAt | 3d_figures.js:132-136 | the concatenated colour array holds four floats per colour, and floats 4·v .. 4·v+3 are colour `v` |
| Meshes.ExpandedColorOf | 3d_figures.js:264-269 | with repeat count `k`, the GPU colour read for vertex `v` is face colour `v / k` |
| Meshes.ConcatIndex | 3d_figures.js:276-335 | an index table written as groups of width `w` has `w` entries per group, and entry `i` is entry `i % w` of group `i / w` |
| Meshes.ConcatBelow | 3d_figures.js:276-335 | an index table is in range when each of its groups is |
| Figures.SequentialTable | 3d_figures.js:143-152 | the octahedron and pyramid index lists have 24 entries, and entry `i` is `i` |
| Figures.SequentialTrianglesFlat | 3d_figures.js:132-152 | with sequential indices and three copies of each face colour, every corner of triangle `t` has face colour `t` |
| Figures.OctahedronMesh | 3d_figures.js:81-170 | the octahedron descriptor: the literal tables; nVerts, nColors and nIndices all 24 and equal to what the arrays hold; every index in range and below 2^16; flat shaded |
| Figures.DodecahedronIndexTable | 3d_figures.js:276-335 | the dodecahedron index list has 108 entries, all below 21; entries 9 and 11 are vertices 0 and 5 |
| Figures.DodecahedronFacesShape | 3d_figures.js:276-335 | each of the 12 face groups lists three triangles over the 21 vertices |
| Figures.DodecahedronColorTable | 3d_figures.js:249-269 | the 12 colours repeated 5 times give 240 floats; vertex 0 gets colour 0 and vertex 5 gets colour 1 |
| Figures.DodecahedronMesh | 3d_figures.js:213-353 | the dodecahedron descriptor: 21 vertices; 108 indices, all in range; nColors recorded as 21 while 60 colours are uploaded, so the counts disagree; triangle 3 has corners of two different colours |
| Figures.PyramidMeshAsWritten | 3d_figures.js:382-474 | the pyramid descriptor as written: 24 vertices and colours in the arrays, but nVerts and nColors recorded as 72, so the counts disagree; indices in range; flat shaded |
| Figures.PyramidMesh | 3d_figures.js:462-474 | the corrected pyramid descriptor, with counts divided by the vertex size: nVerts, nColors and nIndices all 24, and every count agrees with its array |
| Scene.CreateOctahedron | 3d_figures.js:75-173 | a fresh object whose mesh has the octahedron's vertex and index tables and the colour array of each face colour three times; counts 24/24/24 agreeing with the arrays; indices in range and below 2^16; flat shaded. Its matrix is one translation by `translation`, its timestamp is `now`, it starts bobbing upwards, and it is in phase exactly when it starts at height at most 3 |
| Scene.CreateDodecahedron | 3d_figures.js:207-355 | a fresh spinning object whose mesh has the dodecahedron's vertex and index tables and the colour array of each face colour five times; nVerts 21, nIndices 108, indices in range and below 2^16; nColors 21 against 60 uploaded colours, so the counts disagree. Translated by `translation`, timestamp `now` |
| Scene.CreatePyramid | 3d_figures.js:376-476 | a fresh spinning object with the pyramid's descriptor as written: the vertex and index tables and each face colour three times; 24 vertices and colours in the arrays but nVerts and nColors recorded as 72, so the counts disagree; indices in range; flat shaded. Translated by `translation`, timestamp `now` |
| Animation.Fraction | 3d_figures.js:6 | the elapsed fraction is zero exactly when no time passed and positive exactly when time went forward; 10000 ms give a full turn and 2500 ms a quarter |
| Animation.TickEffect | 3d_figures.js:174-201 | an update stores `now`; it only appends to the matrix history, the rotation by the elapsed fraction first; it keeps the kind of motion; it moves the octahedron's oscillator by exactly one step; a spinning object's height is unchanged |
| Animation.BobFlipRule | 3d_figures.js:188-200 | the step moves the height by +5·fract going up and -5·fract going down, and the direction flips exactly when going up above +3 or going down below -3 |
| Animation.BobStepKeepsPhase | 3d_figures.js:188-200 | every step keeps the phase invariant: going up at most at +3, going down at least at -3 |
| Animation.IdleBobStep | 3d_figures.js:188-200 | a step with no elapsed time leaves an in-phase oscillator as it was |
| Animation.IdleTick | 3d_figures.js:174-201 | an update with no elapsed time appends only identity calls, keeps the height and keeps an in-phase object's direction |
| Animation.Climbs | 3d_figures.js:188-193 | going up with equal steps, the height after `n` steps is the start plus 5·n·fract, and the direction stays up while that height is at most +3 |
| Animation.TurnsDown | 3d_figures.js:188-193 | the first step that carries the height above +3 turns the oscillator down |
| Animation.Descends | 3d_figures.js:194-199 | going down with equal steps, the height after `n` steps is the start minus 5·n·fract, and the direction stays down while that height is at least -3 |
| Animation.TurnsUp | 3d_figures.js:194-199 | the first step that carries the height below -3 turns the oscillator up |
| Animation.StaysInBand | 3d_figures.js:174-201 | with every fraction between 0 and `maxFract`, an in-phase oscillator that starts within ±(3 + 5·maxFract) stays in phase and within that band for any number of steps |
| Animation.BobRunIsTrace | 3d_figures.js:188-200 | stepping the oscillator `n` times with one fraction is the same as its trace over `n` copies of that fraction |
| Animation.TicksFollowBobRun | 3d_figures.js:174-201 | after `n` updates of a bobbing object, each `dt` milliseconds after the previous one, the object still bobs and its oscillator is the oscillator stepped `n` times with the fraction of `dt` |
| Animation.RepeatedTicksClimb | 3d_figures.js:188-194 | `k` updates `dt` apart of an object bobbing upwards, whose height stays at most 3, leave it bobbing upwards, `5·k·fract` higher |
| Animation.RepeatedTicksTurnDown | 3d_figures.js:188-197 | when the `n`-th such update is the first to carry the height above 3, the object ends bobbing downwards at height `offset + 5·n·fract` |
| Animation.RepeatedTicksTurnUp | 3d_figures.js:188-200 | when the `n`-th update of an object bobbing downwards is the first to carry its height below -3, it ends bobbing upwards at height `offset - 5·n·fract` |
| Animation.SceneObject.constructor | 3d_figures.js:158-173 | a new object's matrix is the identity translated once; its timestamp is `now`; an octahedron starts going up; it is valid exactly when it does not bob or starts at height at most 3 |
| Animation.SceneObject.Update | 3d_figures.js:174-201 | the new state is exactly one `Tick` of the old state, and the phase invariant is preserved |
| FrameLoop.SnapshotsAt | 3d_figures.js:555-558 | entry `i` of the mesh and matrix lists is object `i`'s |
| FrameLoop.DrawCallIndex | 3d_figures.js:555-578 | draw call `i` is object `i`'s, with its primitive, its index count and its current matrix |
| FrameLoop.FrameLayout | 3d_figures.js:581-589 | a frame is: the next-frame request, the clear, one draw call per object in list order, then one update per object in list order |
| FrameLoop.FrameDrawCount | 3d_figures.js:555-578 | a frame issues exactly one draw call per object |
| FrameLoop.DrawsPrecedeUpdates | 3d_figures.js:581-589 | no draw call follows an update within a frame: every object is drawn with the matrix its previous update made |
| FrameLoop.DrawCountsAreListLengths | 3d_figures.js:577 | an object whose index list is a triangle list is drawn as triangles, with a count equal to that list's length |
| FrameLoop.Draw | 3d_figures.js:545-579 | the context receives the clear followed by the draw calls of all objects in list order, each with the object's current matrix |
| FrameLoop.UpdateAll | 3d_figures.js:587-588 | every object is updated once, in list order, with its own clock reading, and each keeps its phase invariant |
| FrameLoop.Run | 3d_figures.js:581-589 | the context receives exactly one frame, drawn with the matrices from before the call; every object's new state is one `Tick` of its old state with its clock reading; each object keeps its phase invariant |

## Left out

- WebGL context creation, the viewport, the shaders and their source strings, and `alert`: these are I/O with the browser and the GPU. Draw calls are recorded as events instead.
- GPU buffer handles, `bufferData` and `vertexAttribPointer`: the model records the uploaded arrays and the counts, not the buffer objects. `DrawSafe` states the bounds those calls rely on.
- `projectionMatrix` and `mat4.perspective`: the projection matrix is set once and only passed through.
- The numerics of gl-matrix (`mat4.rotate`, `mat4.translate` on 16 floats): the matrix is kept as its call history. `m[13]` is modelled by `VerticalOffset`, the sum of the vertical translations. This is exact only while the matrix's y column is (0, 1, 0). Translation along a tilted or rotated basis is not modelled.
- Floating point: the elapsed fraction, the trigonometry and the ±3 comparisons are computed on exact reals. Rounding of `Float32Array` and of doubles is not modelled.
- `requestAnimationFrame` and the recursion into the next frame: the model records the request as an event and models one call of `run`. Repeated frames are covered by the oscillator lemmas over many steps.
- Animation.SceneObject.Update: the height it compares with ±3 is `VerticalOffset`, not the true `m[13]` of the rotated matrix. When the rotation tilts the y column, the real translation drifts away from the world's vertical axis, and that drift is not modelled.
- `Date.now()`: it becomes the parameter `now`, and in `run` the list `clock` of readings.
- The page script that calls the three factories and starts `run`: it is outside the factories and the frame loop.
- FrameLoop.Run and FrameLoop.UpdateAll: they require that the objects in the list are distinct. This is an assumption about the caller: each factory returns a fresh object literal (3d_figures.js:158, 341, 462), so three factory calls give three distinct objects. A list holding the same object twice would be updated twice, and that case is not modelled.

## Findings

| source | as written | input that shows it | evidently intended | confidence | as-written member | corrected member |
|---|---|---|---|---|---|---|
| 3d_figures.js:467-469 | `createPyramid` records `nVerts` and `nColors` as `vertices.length`, which is 72, the number of floats rather than the number of vertices | the pyramid's own vertex table: 72 floats, so 24 vertices and 24 uploaded colours, recorded as 72 each | `vertices.length / 3` (24), as the octahedron and the dodecahedron record it (3d_figures.js:163, 165, 346, 348) | not executed; nothing in this file reads `nVerts` or `nColors` (`draw` reads `vertSize`, `colorSize`, `nIndices` and `primtype`, 3d_figures.js:561, 564, 577), so the 72 has no effect on drawing, and the as-written descriptor is still proved safe to draw | Figures.PyramidMeshAsWritten | Figures.PyramidMesh |
