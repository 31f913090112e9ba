# Boing-Ball in Dafny

A model of the two OpenGL/GLUT programs of Boing-Ball, with proofs about them:

- `src/run.cpp`, the full scene. `init` chains five geometry builders into one shared set of buffers:
  - a 31 × 31 ground grid;
  - a 31 × 31 back wall;
  - a UV sphere of 23 meridians × 15 points;
  - two 24-vertex shadow discs drawn as triangle fans.

  Each builder receives the vertex count before it (`lastIndex`) and returns the count after it. `update` spins and moves the ball once per frame. It bounces the ball off the ground and four walls, and can put it to rest. There is no ceiling, so the region the ball stays in (`InBox`) is a box open at the top. `keyboard` pushes the ball, stops or resets it, pauses the simulation and cycles the camera view.
- `run.cpp`, the single-sphere demo. `init` builds one 23 × 21 UV sphere. `update` spins it about a chosen axis and bounces it in the xy plane, off the ground and two side walls. Nothing bounds it from above. `keyboard` pushes, resets and pauses it, and `mouse` chooses the spin axis.

Files:

- `mesh_math.dfy` (module `MeshMath`) holds the layout that both programs share:
  - the vertex order of the nested loops (`RowMajor`);
  - the grid/sphere triangulation (`CellIndices`) and its index count, index range and no-wrap lemmas;
  - the shadow triangle fan (`FanIndices`).
- `scene_mesh.dfy` (module `SceneMesh`) holds the builders of `src/run.cpp` as methods of class `MeshBuffers`. Its fields are `vertices`, `normals` and `indices`. Each builder is proved to append exactly a specification sequence, and `Init` is proved to leave the buffers as the concatenation of the five surfaces in chain order.
- `scene_ball.dfy` (module `SceneBall`) holds `update` and `keyboard` of `src/run.cpp`:
  - pure functions `Tick` and `KeyPress` on a snapshot `BallState`;
  - class `Simulation`, which holds the globals. Its `Update` and `Keyboard` change the fields in the source's order and are proved equal to `Tick` and `KeyPress`.
  - `RunStaysSane` shows what stays true over any sequence of frames and key presses.
- `sphere_demo.dfy` (module `SphereDemo`) does the same for `run.cpp`, with classes `SphereMesh` and `Demo`.

Representation choices:

- A vertex is a `Vec4` (four reals), so the float buffer's `vertices.size() / 4` is `|vertices|`.
- A normal is a `Vec3`.
- `sin`, `cos` and `glm::normalize` are function parameters. The model proves nothing about their values. It only places each result where the source stores it.
- Physics is on `real`.

## Model

| member | source | states |
|---|---|---|
| MeshMath.RowMajor | src/run.cpp:76-93 | The nested vertex loops produce rows × cols vertices. |
| MeshMath.RowMajorAt | src/run.cpp:76-93 | Vertex (i, j) of the nested loops sits at position i·cols + j. |
| MeshMath.CellIndicesLength | src/run.cpp:94-108 | After n iterations of the index loop there are 6·((n div cols)·(cols−1) + n mod cols) indices. Only cells not on the last column emit their six. |
| MeshMath.GridIndexCount | src/run.cpp:94-108 | Over `rows` full rows the index loop emits 6·rows·(cols−1) indices. |
| MeshMath.GridIndicesInRange | src/run.cpp:94-108 | Every index of a grid lies in [base, base + rows·cols + cols − 1], so it names one of the grid's own (rows+1)·cols vertices. |
| MeshMath.GridNoWrap | src/run.cpp:96-107 | Every triangle uses two neighbouring columns c and c+1 with c+1 < cols. The edge test stops triangles from wrapping round a row end. |
| MeshMath.FanIndices | src/run.cpp:261-266 | The fan of n triangles has 3n indices, all in [base+1, base+n+1]. The centre vertex `base` is never referenced. |
| MeshMath.FanPivot | src/run.cpp:261-266 | Every fan triangle starts at base+1, the first rim point. The first triangle is (base+1, base+1, base+2), which repeats its pivot. |
| SceneMesh.GroundVertices | src/run.cpp:59-93 | The ground has 961 vertices, all with z = 0 and w = 1. |
| SceneMesh.WallVertices | src/run.cpp:114-147 | The wall has 961 vertices, all with y = 2 and w = 1. |
| SceneMesh.SphereVertices | src/run.cpp:168-203 | The sphere has 23 × 15 = 345 vertices, all with w = 1. |
| SceneMesh.WallShadowRimFlat | src/run.cpp:242-259 | n rim iterations push n points, each with z = 0 and w = 1. |
| SceneMesh.GroundShadowRimFlat | src/run.cpp:288-305 | n rim iterations push n points, each with y = 0 and w = 1, because y and z are swapped when pushed. |
| SceneMesh.WallShadowVertices | src/run.cpp:225-259 | The wall shadow has the centre plus 23 rim points (24 vertices), all with z = 0 and w = 1. |
| SceneMesh.GroundShadowVertices | src/run.cpp:271-305 | The ground shadow has 24 vertices, all with y = 0 and w = 1. |
| SceneMesh.SceneIndicesBySurface | src/run.cpp:338-345 | The chained index buffer has 5400+5400+1848+66+66 = 12780 entries. Each surface's slice names only that surface's vertices: [0,960], [961,1921], [1922,2266], [2268,2290] and [2292,2314]. All are < 2315. |
| SceneMesh.MeshBuffers.constructor | src/run.cpp:17-19 | The three buffers start empty. |
| SceneMesh.MeshBuffers.AppendGrid | src/run.cpp:76-93 | The nested vertex loops append exactly `RowMajor(rows, cols, f)` and one matching normal per vertex. Indices are unchanged. |
| SceneMesh.MeshBuffers.AppendCells | src/run.cpp:94-108 | The index loop appends exactly `CellIndices(lastIndex, cols, n)`. Vertices and normals are unchanged. |
| SceneMesh.MeshBuffers.MakeGround | src/run.cpp:59-111 | Appends the 961 ground vertices with normal (0,−1,0) and 5400 indices, every new index in [lastIndex, lastIndex+960]. Returns the new vertex count. When `lastIndex` is the old count, the new indices lie in [lastIndex, end). |
| SceneMesh.MeshBuffers.MakeWall | src/run.cpp:114-166 | Same as MakeGround for the wall: y = 2, normal (0,0,1), 5400 indices in [lastIndex, lastIndex+960]. |
| SceneMesh.MeshBuffers.MakeSphere | src/run.cpp:168-223 | Appends the 345 sphere vertices and 1848 indices, all in [lastIndex, lastIndex+344]. Each new normal is `normalize` of its vertex's xyz. When `lastIndex` is the old count, the new indices lie in [lastIndex, end). |
| SceneMesh.MeshBuffers.AppendFan | src/run.cpp:261-266 | The fan loop appends exactly `FanIndices(lastIndex, n)`. |
| SceneMesh.MeshBuffers.AppendWallRim | src/run.cpp:242-259 | The rim loop appends exactly `WallShadowRim(radius, sin, cos, 23)`, each point pushed as (x, y, 0, 1). Normals and indices are unchanged. |
| SceneMesh.MeshBuffers.AppendGroundRim | src/run.cpp:288-305 | The same loop for the ground shadow, each point pushed as (x, 0, y, 1): exactly `GroundShadowRim(radius, sin, cos, 23)`. Normals and indices are unchanged. |
| SceneMesh.MeshBuffers.MakeWallShadow | src/run.cpp:225-269 | Appends 24 vertices with z = 0 and no normals. Appends 66 indices, all in [lastIndex+1, lastIndex+23]. |
| SceneMesh.MeshBuffers.MakeGroundShadow | src/run.cpp:271-315 | Appends 24 vertices with y = 0 and no normals. Appends 66 indices, all in [lastIndex+1, lastIndex+23]. |
| SceneMesh.MeshBuffers.MakeSurfaces | src/run.cpp:341-343 | Starting from empty buffers, the ground, wall and sphere builders return 961, 1922 and 2267. The vertices are the three surfaces in that order, and the normals are their normals. The indices are the three grids' cells, each based at the vertex count before it. |
| SceneMesh.MeshBuffers.MakeShadows | src/run.cpp:344-345 | After the 2267 surface vertices, the ground-shadow and wall-shadow builders return 2291 and 2315. Their 24 + 24 vertices and two 66-index fans, pivoting on 2268 and 2292, are appended. The normals are unchanged. |
| SceneMesh.MeshBuffers.Init | src/run.cpp:338-345 | The chain returns the offsets 961, 1922, 2267, 2291 and 2315. The vertex buffer is ground, wall, sphere, ground shadow and wall shadow in that order. The normal buffer holds the normals of the first three only. The index buffer is `SceneIndices()`, and every index names an existing vertex. |
| SceneBall.Spin | src/run.cpp:592-604 | Theta[Yaxis] moves by −2 (clockwise) or +2, modulo one turn, and stays in [0, 360] when it starts there. A stepped angle already in [0, 360], 0 and 360 included, is kept as it is. |
| SceneBall.Reflect | src/run.cpp:621-638 | A coordinate is clamped into [lo, hi]. At or past `hi` it is put on `hi`; otherwise, at or below `lo` it is put on `lo`. In both cases the velocity component is negated. Strictly between the bounds both are untouched. |
| SceneBall.Tick | src/run.cpp:586-645 | When paused or resting, the state is frozen. Otherwise Theta[Yaxis] takes one `Spin` step, while pause, view, rotation direction and Theta[X], Theta[Z] are unchanged. Each coordinate of the drifted ball that reached or passed a surface is put on that surface, and the ball ends inside the open-topped box. Each crossed axis has its velocity negated and the others keep theirs, and the vertical velocity gains gravity once. The ball comes to rest exactly when it lands with a rebound of at most abs(gravity), and then its velocity is (0, gravity, 0). |
| SceneBall.MovedKeeps | src/run.cpp:592-604 | A moving tick changes only Theta[Yaxis], by one `Spin` step, and keeps pause, view and the rotation direction. |
| SceneBall.MovedRest | src/run.cpp:612-619 | A moving tick sets `rest` exactly when the drifted ball is at or below ground + radius and the rebound speed is at most abs(gravity). |
| SceneBall.MovedPosition | src/run.cpp:607-639 | After a moving tick each coordinate is the drifted one, or the surface it reached or passed: ground + radius, right or left wall, near or far wall. |
| SceneBall.MovedVelocity | src/run.cpp:612-642 | After a moving tick that rests, the velocity is (0, gravity, 0). Otherwise each crossed component is negated, the rest are kept, and gravity is added to vy. |
| SceneBall.FreeFlight | src/run.cpp:607-642 | A tick that touches no surface moves the ball by velocity + (0, gravity, 0) and adds gravity to the velocity. |
| SceneBall.KeyPress | src/run.cpp:515-565 | Space cycles view 0→1→2→0 and changes nothing else. e toggles pause and changes nothing else. w/a/s/d/j add their impulse to the velocity and wake the ball. k wakes it and zeroes the velocity. r wakes it and restores position (0,1,−1) and velocity (impulse, impulse, impulse). Every other key changes nothing, and Theta and the rotation direction never change. |
| SceneBall.MoveKeysPushOneAxis | src/run.cpp:532-551 | Each move key changes exactly one velocity component, by +impulse or −impulse. |
| SceneBall.RunStaysSane | src/run.cpp:515-645 | After any sequence of frames and key presses: view ∈ {0,1,2}, Theta[Yaxis] ∈ [0, 360] and the ball is inside the open-topped box. The rotation direction and Theta[X], Theta[Z] never change. |
| SceneBall.InitialIsSane | src/run.cpp:44-49 | The default settings satisfy that invariant, with clockwise rotation. |
| SceneBall.Simulation.constructor | src/run.cpp:44-49 | The globals start at the default settings. |
| SceneBall.Simulation.Update | src/run.cpp:586-645 | The new state of the globals is `Tick` of the old state. |
| SceneBall.Simulation.Rotate | src/run.cpp:592-604 | Only Theta[Yaxis] changes, as `Spin` says. |
| SceneBall.Simulation.Move | src/run.cpp:607-619 | Drift, then the ground collision. |
| SceneBall.Simulation.BounceOffWalls | src/run.cpp:621-638 | The x-wall collision, then the z-wall collision. |
| SceneBall.Simulation.Keyboard | src/run.cpp:515-565 | The new state is `KeyPress` of the old state. The exit flag is set exactly for Escape, q and Q. |
| SphereDemo.DemoSphereVertices | run.cpp:54-76 | The demo sphere has 23 × 21 = 483 vertices, all with w = 1. |
| SphereDemo.DemoSphereTriangulation | run.cpp:79-95 | The demo sphere has 2640 indices, all in [0, 482], and no triangle wraps from the end of one meridian to the next. |
| SphereDemo.SphereMesh.constructor | run.cpp:17-18 | Both buffers start empty. |
| SphereDemo.SphereMesh.Init | run.cpp:50-95 | Fills exactly the sphere's vertices and indices: 483 and 2640, every index naming a vertex. |
| SphereDemo.SphereMesh.PushVertices | run.cpp:54-76 | The vertex loops append the 23 meridians of 21 points in order. |
| SphereDemo.SphereMesh.PushIndices | run.cpp:79-95 | The index loop appends exactly `CellIndices(0, 21, 462)`. |
| SphereDemo.Advance | run.cpp:223-227 | Theta[Axis] gains 0.5, or 0.5 − 360 once past 360, and stays in [0, 360]. |
| SphereDemo.Tick | run.cpp:219-256 | When paused or resting, the state is frozen. Otherwise Theta[Axis] takes one `Advance` step and no other angle changes. The drifted sphere is put back on the ground or a wall it reached or passed, so it ends on or above the ground and between the walls. A crossed wall or a landing negates that velocity component. The z position and velocity stay 0. The sphere comes to rest exactly when it lands with a rebound of at most abs(gravity), and then its velocity is (0, gravity, 0). |
| SphereDemo.KeyImpulse | run.cpp:175-190 | The push of a move key has no z component. |
| SphereDemo.KeyPress | run.cpp:166-200 | Space toggles pause and changes nothing else. w/s change vy and a/d change vx by the impulse, waking the sphere. r restores (0,0,0) and (impulse, impulse, 0). Other keys change nothing. z stays 0, and a sphere above the ground and between the walls stays there. |
| SphereDemo.Click | run.cpp:205-215 | On a button press, left, middle and right select the X, Y and Z axis. Anything else changes nothing, and nothing but Axis ever changes. |
| SphereDemo.RunStaysSane | run.cpp:164-256 | After any sequence of frames, keys and clicks, position.z = velocity.z = 0, the sphere is on or above the ground and between the walls (it has no upper bound), and all three angles are in [0, 360]. |
| SphereDemo.InitialIsSane | run.cpp:39-41 | The start state, paused, satisfies that invariant. |
| SphereDemo.Demo.constructor | run.cpp:22-41 | The globals start at their initial values with `pause` true. |
| SphereDemo.Demo.Update | run.cpp:219-256 | The new state is `Tick` of the old state. |
| SphereDemo.Demo.Rotate | run.cpp:223-227 | Only Theta[Axis] changes, as `Advance` says. |
| SphereDemo.Demo.Move | run.cpp:229-241 | Drift, then the ground collision. |
| SphereDemo.Demo.Keyboard | run.cpp:166-200 | The new state is `KeyPress` of the old state. The exit flag is set exactly for Escape, q and Q. |
| SphereDemo.Demo.Mouse | run.cpp:205-215 | The new state is `Click` of the old state. |

## Left out

- OpenGL and GLUT are not modelled: buffer upload, shaders, lighting (`initLight`), `display` and its matrices, `reshape`, the timer and the main loop.
- The exit keys (Escape, q, Q) call `exit`. Here `Keyboard` returns `exit = true` and leaves the state unchanged.
- `mouse` of `src/run.cpp` (570-580) is not modelled because its body is commented out and does nothing. The root program's `mouse` is modelled.
- Sphere and shadow-rim coordinates come from `sin`, `cos` and `glm::normalize`, which are parameters. No property of their values (unit length, a radius) is proved.
- Only the literal components are checked: w = 1, z = 0 of the ground and wall shadow, y = 0 of the ground shadow, y = 2 of the wall, and the constant normals.
- Float rounding is not modelled: vertex coordinates, angles, positions and velocities are exact reals. The source's float loop counters (`for (float j = 0; j < xPoints; j++)`) are treated as the integers they count exactly.
- `abs(vCurrent.y)` is read as the floating-point absolute value (`Abs`). The integer `abs` overload, which would truncate, is not modelled.
- `lastIndex` is a `nat`. The `GLuint` conversion of the source's `int` offsets, and its wrap-around for negative values, are not modelled because the offsets the programs pass are never negative.
- Points where the model states what the code does rather than what its names or comments suggest:
  - Coming to rest sets the velocity to (0, 0, 0) at src/run.cpp:618, and the gravity step at :642 then still runs. So the stored velocity of a resting ball is (0, gravity, 0), not zero.
  - The wrap tests at src/run.cpp:599-604 use `> 360.0` and `< 0`, so 0 and 360 are both kept. Angles stay in the closed range [0, 360].
  - Gravity is added once to the position (src/run.cpp:609) and once to the vertical velocity (:642) per tick, and nowhere else.
  - The shadow fans pivot on `lastIndex + 1` (src/run.cpp:264 and :310), which is the first rim point, although the comment on those lines says "center". The centre vertex at `lastIndex` is pushed but never referenced.
- Both shadow builders push no normals, so 2267 normals follow 2315 vertices. How the shader reads the missing normals is outside the model.
