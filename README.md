# Anaglyph renderer model

A Dafny model of the core of a small OpenGL red/cyan anaglyph renderer. The
model covers five parts:

- **Application state.** The globals `anaglyphMode`, `ipd`, `numBoxes`,
  `useSphereScene`, `rotating`, the orbit camera and the scene list form the
  class `App.AppState`. The class also tracks how many `rand()` draws have
  been made. The methods on it are `nextAnaglyphMode`, `key_callback` and
  `generateScene`. A pure value, `App.Settings`, together with the function
  `App.OnKey`, specifies what one key event does.
- **The stereo camera** (`Stereo`). It holds the two eye positions, the
  asymmetric frustum bounds and the view-projection matrices of the Toe-in
  and Asymmetric modes, all over the reals. The view-projection matrices are
  symbolic terms (`Linear.Mat4`) that are built and compared but not
  multiplied out. The screen position is computed by hand instead, for the
  parallax statement only. `Stereo.NdcX` is the horizontal clip mapping of
  `glm::frustum` followed by the perspective divide. A point's view-space
  coordinates are its offsets along `rightDir` and `forwardDir`, which is
  what `lookAt(eye, eye + forwardDir, up)` gives for an orthonormal lens. The results of `normalize`, `cross` and `tan` are inputs (a
  `Stereo.Lens`).
- **The frame loop body** (`Renderer`). One pass of `main`'s do-while loop
  is the stream of GL commands it sends: clears, colour masks, and one draw
  per scene entry. The stream goes to a `Renderer.Gl` context. Folding the
  colour mask and the depth-buffer generation over the stream tells which
  draw lands under which mask and which draws share a depth buffer.
- **The sphere mesh** (`SphereMesh`). This is `Sphere::generateGeometry`
  with its nested loops and the running vertex numbers `k1`/`k2`. The vertex
  positions are an input function of (stack, sector). The colours are
  successive `rand()` draws. It also covers `initialize` and `render`.
- **Randomness.** `rand()` is a stream `nat -> real`. The model counts the
  draws. A random box transform is the opaque term `RandomModel(firstDraw)`
  over its eight draws.

## Model

| member | source | states |
|---|---|---|
| App.Ordinal | src/anaglyph.cpp:53-58 | the enum's integer values; only the count sentinel `AnaglyphModeCount` has value 3 |
| App.FromOrdinal | src/anaglyph.cpp:72 | the cast `(AnaglyphMode)k` inverts `Ordinal` |
| App.NextMode | src/anaglyph.cpp:71-73 | the next mode is `(mode + 1) % 3` and never the "Invalid" sentinel, even when started from it |
| App.ModeCycle | src/anaglyph.cpp:53-73 | None → ToeIn → Asymmetric → None: three steps return to the start and fewer do not |
| App.AppState.NextAnaglyphMode | src/anaglyph.cpp:71-73 | the field becomes `NextMode` of its old value and is a real mode |
| App.AppState.constructor | src/anaglyph.cpp:29-67 | the globals' initial values (mode None, ipd 2, one box, eye (0,0,100), azimuth and polar π/2), then the first `generateScene` gives the single debug box |
| App.SceneTransforms | src/anaglyph.cpp:88-113 | the scene list has exactly `numBoxes` entries: the debug box when `numBoxes` is 1, else one random transform per box |
| App.SceneShape | src/anaglyph.cpp:96-111 | the random boxes use disjoint, consecutive blocks of eight draws, all within the draws `generateScene` makes |
| App.AppState.GenerateScene | src/anaglyph.cpp:88-113 | clears the list whatever it held and appends the `SceneTransforms` for the current `numBoxes`; advances the draw counter by `SceneDraws` |
| App.AppState.KeyCallback | src/anaglyph.cpp:374-467 | the new settings are `OnKey` of the old ones; the scene is rebuilt exactly when the event is key 1, key 0, or key 2 on press, and otherwise the scene and the draw counter are unchanged; validity (real mode, ipd ≥ 0, 1 or 100 boxes, list length = `numBoxes`) is kept |
| App.AppState.CameraKeys | src/anaglyph.cpp:376-420 | SPACE, R, the arrows and M act as `OnCameraKey`; every other key leaves the settings alone |
| App.AppState.StereoAndSceneKeys | src/anaglyph.cpp:425-466 | COMMA, PERIOD, 1, 0, 2 and ESC act as `OnSceneKey` and rebuild the scene as `KeyCallback` states; camera keys leave the settings alone |
| App.OnKey | src/anaglyph.cpp:374-467 | defines the settings after one key event: the camera bindings for SPACE, R, the arrows and M, the scene bindings for every other key |
| App.OnCameraKey | src/anaglyph.cpp:376-420 | defines SPACE and R (press only), the arrows (press or repeat) and M (press only) |
| App.OnSceneKey | src/anaglyph.cpp:425-466 | defines COMMA, PERIOD, 1 and 0 on any action, and 2 and ESC on press only |
| App.AppState.TiltTo | src/anaglyph.cpp:391-401 | UP/DOWN: sets `viewPolar` and moves the eye's y to `viewDistance·cos(viewPolar)` |
| App.AppState.OrbitTo | src/anaglyph.cpp:403-415 | LEFT/RIGHT: sets `viewAzimuth` and moves the eye's x and z on the orbit circle |
| App.OnKeyPreservesValid | src/anaglyph.cpp:374-467 | every key event keeps the settings valid |
| App.OnKeysPreservesValid | src/anaglyph.cpp:425-434 | from any valid settings, the initial ones included, every event sequence keeps `ipd ≥ 0` and a real mode |
| App.InitialSettingsValid | src/anaglyph.cpp:46-67 | the initial settings are valid and ipd starts at 2.0 |
| App.IpdKeys | src/anaglyph.cpp:425-434 | COMMA sets ipd to `max(ipd − 0.1, 0)` and PERIOD to `ipd + 0.1`, on any action; nothing else changes and the scene is not rebuilt |
| App.RepeatedComma | src/anaglyph.cpp:425-429 | n COMMA events give `max(ipd − 0.1n, 0)` |
| App.RepeatedPeriod | src/anaglyph.cpp:431-434 | n PERIOD events give `ipd + 0.1n`; there is no upper bound |
| App.DecreaseFromInitialClampsAtZero | src/anaglyph.cpp:425-429 | 21 COMMA events from the initial 2.0 land exactly on 0 |
| App.TapMovesIpdTwice | src/anaglyph.cpp:431-434 | since PERIOD ignores the action, one press-and-release moves ipd by two steps |
| App.SceneKeys | src/anaglyph.cpp:436-463 | key 1 sets 1 box and key 0 sets 100 boxes on any action, each rebuilding the scene; key 2 toggles the sphere scene and rebuilds only on press, keeping `numBoxes` |
| App.CommandKeys | src/anaglyph.cpp:376-420 | on press, SPACE toggles rotation, R stops it and restores the original eye and angles, and M advances the mode; nothing else changes |
| App.UnboundEventsAreIgnored | src/anaglyph.cpp:374-467 | unbound keys on any action, the press-only keys (SPACE, R, M, 2, ESC) on release or repeat, and the arrows on release change nothing and rebuild nothing |
| Stereo.EyesStraddleCenter | src/anaglyph.cpp:240-272 | the two eyes average to `eyeCenter` and differ by `ipd·rightDir`; with ipd 0 both are `eyeCenter` |
| Stereo.EyeSeparation | src/anaglyph.cpp:240-241 | with a unit `rightDir` the eyes are `ipd` apart (squared distance ipd²) |
| Stereo.LeftEyePos | src/anaglyph.cpp:240 | the left eye sits ipd/2 against `rightDir` from `eyeCenter`: moving it ipd/2 along `rightDir` gives `eyeCenter` back |
| Stereo.RightEyePos | src/anaglyph.cpp:241 | the right eye sits ipd/2 along `rightDir` from `eyeCenter`: moving it back by ipd/2 gives `eyeCenter` |
| Stereo.LeftEyeBounds | src/anaglyph.cpp:275-276 | the left eye's frustum is centred at `+frustumShift`, `2·rightVal` wide and vertically symmetric |
| Stereo.RightEyeBounds | src/anaglyph.cpp:282-283 | the right eye's frustum is centred at `−frustumShift`, `2·rightVal` wide and vertically symmetric |
| Stereo.FrustumShift | src/anaglyph.cpp:263 | `frustumShift` is zero exactly when ipd or zNear is zero, and non-negative for non-negative inputs |
| Stereo.FrustumBoundsRelation | src/anaglyph.cpp:275-284 | both asymmetric frusta keep width `2·rightVal` and height `2·top`; the left is the right moved by `2·frustumShift`; `left_left = −right_right`; with no shift they are the same symmetric frustum |
| Stereo.AsymmetricParallax | src/anaglyph.cpp:256-286 | a point straight ahead of `eyeCenter` lies ipd/2 right of the left eye's axis and ipd/2 left of the right eye's, at the same depth; it lands at mirrored screen x in the two eyes, and at the convergence distance `viewDistance` at the centre of both: zero parallax there |
| Stereo.NdcX | src/anaglyph.cpp:277-286 | the horizontal screen position that the asymmetric `glm::frustum` gives a view-space point, in OpenGL's −1..1 convention |
| Stereo.ToeInConverges | src/anaglyph.cpp:233-249 | Toe-in: both eyes share the projection and aim at `lookat`; with ipd 0 both equal the mono view-projection |
| Stereo.AsymmetricStaysParallel | src/anaglyph.cpp:256-286 | Asymmetric: both eyes look along the same `forwardDir` through mirrored frusta; with ipd 0 both are the same symmetric frustum from `eyeCenter` |
| Stereo.MonoViewProjection | src/anaglyph.cpp:208-209 | defines the mono view-projection: the shared projection times `lookAt(eyeCenter, lookat, up)` |
| Stereo.ToeInViews | src/anaglyph.cpp:233-249 | defines Toe-in's `vpLeft` and `vpRight`: the shared projection, each eye looking at `lookat` |
| Stereo.AsymmetricViews | src/anaglyph.cpp:256-286 | defines Asymmetric's `vpLeft` and `vpRight`: each eye's shifted frustum, each eye looking along `forwardDir` |
| Stereo.DefaultShift | src/anaglyph.cpp:263-284 | with the defaults (ipd 2, zNear 0.1, distance 100) the shift is 0.001, so the left eye's frustum spans `±rightVal + 0.001` and the right eye's `±rightVal − 0.001`, for any lens |
| Renderer.PassEffects | src/anaglyph.cpp:212-224 | a draw loop draws every scene entry once, in order, under the current mask, and changes no GL state |
| Renderer.EyePassEffects | src/anaglyph.cpp:294-333 | an eye's pass draws every entry under that eye's mask on a freshly cleared depth buffer and clears no colour |
| Renderer.MonoFrameEffects | src/anaglyph.cpp:196-226 | mono: the colour is cleared twice, the second time with the full mask; every entry is drawn once with the one view-projection under the full mask; the full mask stays set |
| Renderer.MonoBranchEffects | src/anaglyph.cpp:201-226 | the mono branch clears the colour under the full mask and draws every entry once under it against a fresh depth buffer |
| Renderer.StereoFrameEffects | src/anaglyph.cpp:292-337 | stereo: the colour is cleared once, before both passes; every entry is drawn with vpLeft under red only, then with vpRight under cyan, each pass with its own depth buffer; the frame ends with the full mask |
| Renderer.StereoBranchEffects | src/anaglyph.cpp:292-337 | the stereo branch clears no colour; the red pass with vpLeft and the cyan pass with vpRight each get their own depth buffer; the full mask is set again at the end |
| Renderer.FrameKeepsFullMask | src/anaglyph.cpp:196-340 | every frame, in every mode, ends with the full mask, so from a full mask every colour clear clears all channels; a frame makes `numBoxes` draws in mono and twice that in stereo |
| Renderer.ToeInWithoutSeparation | src/anaglyph.cpp:233-249 | Toe-in with ipd 0 draws both passes with the mono view-projection |
| Renderer.FrameOps | src/anaglyph.cpp:194-340 | defines one iteration's command stream: the first clear, then the mono branch or the two eye passes with the mode's view-projections |
| Renderer.Gl.Clear | src/anaglyph.cpp:196 | `glClear` appends a colour-and-depth or a depth-only clear |
| Renderer.Gl.ColorMask | src/anaglyph.cpp:294 | `glColorMask` appends a mask change |
| Renderer.Gl.Render | src/anaglyph.cpp:216-223 | `box.render` or `sphere.render` appends one draw |
| Renderer.RenderScene | src/anaglyph.cpp:212-224 | the loop `for i < numBoxes` sends exactly `Pass` over the first `numBoxes` entries |
| Renderer.RenderMono | src/anaglyph.cpp:200-225 | the mono branch sends the full mask, a clear and the pass |
| Renderer.RenderEye | src/anaglyph.cpp:294-314 | one eye sends its mask, a depth clear and the pass |
| Renderer.RenderStereo | src/anaglyph.cpp:292-337 | the stereo branch sends the red pass, the cyan pass and the full mask |
| Renderer.RenderFrame | src/anaglyph.cpp:194-340 | one loop iteration sends exactly `FrameOps` for the current settings and scene; every `boxTransforms[i]` it reads is in bounds |
| SphereMesh.VertexRows | src/models/sphere.h:44-69 | the vertex buffer holds 3 floats per vertex of each stack |
| SphereMesh.VertexNumbering | src/models/sphere.h:44-77 | vertex number `i·(sectorCount+1)+j`, as the index buffer numbers it, is the point of stack i and sector j |
| SphereMesh.RandRun | src/models/sphere.h:61-67 | the colours are one run of successive `rand()` draws |
| SphereMesh.CellTriangles | src/models/sphere.h:79-90 | defines cell (i, j)'s triangles with `k1 = i·(sectorCount+1)+j` and `k2 = k1+sectorCount+1`: `(k1, k2, k1+1)` unless i is the top stack, `(k1+1, k2, k2+1)` unless i is the bottom stack |
| SphereMesh.Flatten | src/models/sphere.h:79-90 | the index buffer has three indices per triangle |
| SphereMesh.FlattenIndex | src/models/sphere.h:79-90 | index `3t + c` is corner c of triangle t |
| SphereMesh.IndexCount | src/models/sphere.h:72-92 | for `stackCount ≥ 1` there are `2·sectorCount·(stackCount−1)` triangles and `6·sectorCount·(stackCount−1)` indices, none for a single stack |
| SphereMesh.IndicesInRange | src/models/sphere.h:74-90 | every index is `< (stackCount+1)·(sectorCount+1)`, and every triangle has three distinct corners |
| SphereMesh.PoleStacks | src/models/sphere.h:79-90 | with two or more stacks, the top stack emits only `(k1+1, k2, k2+1)` and the bottom stack only `(k1, k2, k1+1)`, one per sector |
| SphereMesh.DefaultSphere | src/models/sphere.h:97 | `generateGeometry(20, 20)` gives 441 vertices (1323 floats) and 2280 indices |
| SphereMesh.Sphere.GenerateGeometry | src/models/sphere.h:33-93 | discards the old buffers; the vertex buffer is the grid of points, the colour buffer the next `3·(stackCount+1)·(sectorCount+1)` draws, and the index buffer the flattened triangles |
| SphereMesh.Sphere.GenerateStackVertices | src/models/sphere.h:50-68 | the inner loop appends the stack's `sectorCount+1` points and three draws per point |
| SphereMesh.Sphere.GenerateStackIndices | src/models/sphere.h:74-91 | the inner loop with its running `k1`, `k2` appends the stack's triangles |
| SphereMesh.Sphere.Initialize | src/models/sphere.h:95-97 | `initialize` leaves the buffers of `generateGeometry(20, 20)`: the grid of points, the next 1323 draws as colours, the flattened triangles; so 1323 vertex floats, 1323 colour floats and 2280 indices |
| SphereMesh.Sphere.Render | src/models/sphere.h:146-150 | one draw of `indexBuffer.size()` elements with MVP `cameraMatrix·modelMatrix` |
| SphereMesh.RenderDrawsWholeTriangles | src/models/sphere.h:33-93 | after `generateGeometry`, the draw count is a multiple of three and every index addresses a whole vertex of the vertex buffer |

## Left out

- GL, GLFW and glad calls: window and context creation, buffer and VAO setup, shader loading, `cleanup`, swapping buffers and polling events. GL state appears only as the command stream a `Renderer.Gl` receives.
- The console output of `printAnaglyphMode`, `printVec3`, `printMat4` and the messages in `key_callback`.
- Float rounding. Every float (`ipd ± 0.1f`, the eye and frustum arithmetic, the camera constants) is a real, and `0.1f` is 0.1.
- The values of `normalize`, `cross`, `tan`, `cos` and `sin`. The frame takes `rightDir`, `forwardDir` and `tan(radians(FoV/2))` as a `Lens`. The arrow keys take `cos`/`sin` as a `Trig` parameter. The sphere takes its vertex positions as a function of (stack, sector).
- One `rightDir` serves both stereo modes. The source derives it as `normalize(cross(lookat − eyeCenter, up))` in Toe-in and `normalize(cross(normalize(lookat − eyeCenter), up))` in Asymmetric. These are the same direction.
- The matrices of `glm::perspective`, `glm::frustum`, `glm::lookAt`, `translate`, `rotate`, `scale` and the products. They are symbolic terms. So Toe-in's zero parallax at `lookat` is not stated, because it is a property of `lookAt`'s rotation.
- The content of `rand()` values. A random box is the term over its eight draws, and the sphere's colours are the draws themselves.
- The animation step at the end of the frame loop (src/anaglyph.cpp:345-354), which reads the clock.
- `cursor_position_callback`, which is empty, and `Box`. `Box` is not part of this model; its draw is the `BoxDraw` draw command.
- Stereo.AsymmetricParallax: the screen x is the hand-written `NdcX` formula applied to view-space axes taken to be `rightDir` and `forwardDir`. It is not read off the symbolic `Frustum` and `LookAt` terms that `AsymmetricViews` builds, so the lemma does not tie those terms to the screen position.
- Stereo.AsymmetricStaysParallel: does not state that Asymmetric with ipd 0 reproduces the mono view-projection. That needs two glm identities: `perspective` equals the symmetric `frustum` of the same angle, and `lookAt` depends only on the viewing direction. The symbolic matrix terms carry neither. For the same reason Toe-in's vertical parallax, from the eyes' rotated image planes, is not stated.
- Integer width. `k1 = i·(sectorCount+1)`, the vertex counts and the `GLuint`/`GLsizei` casts of the index buffer and its size are unbounded integers. Overflow needs more than 2^31 vertices, far beyond the 20×20 sphere.
- The shared `rand()` counter between `sphere.initialize` and the first `generateScene`. `Box::initialize` may also draw from it, so the App constructor takes its first draw as a parameter.

## Notes

- The code does not reject a degenerate camera, such as an eye at `lookat` or one looking along `up`. What `normalize` makes of a zero vector is left to the `Lens` input.
- The callback's `if`s are independent, but each tests a different key, so at most one fires per event. `App.OnKey` has one binding per key.
- The frame's command stream treats a sphere draw as opaque. `Draw(SphereDraw, vp, model)` does not carry the index count, so the frame lemmas do not restate `SphereMesh.IndicesInRange` or `SphereMesh.RenderDrawsWholeTriangles`. Those follow from `SphereMesh.Sphere.Initialize` and `SphereMesh.Sphere.Render` for the sphere that is drawn.
- `useSphereScene` toggling with key 2 calls `generateScene` in both branches of its `if`. The model keeps both calls.
