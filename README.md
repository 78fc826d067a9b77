# OpenRocket Visualizer: silhouette engine and scene machine

This project models two parts of the OpenRocket Visualizer.

The first is the silhouette engine in `visualizer/rocket.py`, which draws a 2D side view of
a rocket:

- The nose cone, each body tube and each fin set build a local outline once, in metres.
  - The origin is the midpoint of the rocket; the nose tip sits at `-total/2`.
  - The nose outline is a tip plus mirrored radius samples.
  - A body tube is a 4-corner rectangle.
  - A fin outline has its axes swapped and the attachment offset added.
- Every frame, `Rocket.update` works out one scale, one pitch rotation and one pixel centre.
  It hands them to the nose and to every tube, and each tube hands them to its fins.
  - Each part overwrites its cached pixel polygon(s).
  - A fin set of `n` fins produces `n` instances. The radial coordinate of instance `i` is
    scaled by `cos(2πi/n + β)`.
  - Each instance gets a front/back flag, `(2πi/n + β) mod 2π <= π`.
- Drawing goes nose first, then each tube:
  - every fin's backward instances;
  - the tube itself;
  - every fin's forward instances.

The second is the scene machine in `visualizer/scene.py`:

- which scene object is current and the state it reports;
- the briefing scene's key transitions and its back action;
- the top scene's `.ork` file choice;
- `switch_scene`, including how a briefing scene receives the top scene's file;
- the 16:9 clamp applied to a resized window.

Modules:

- `Geometry`: points, 2x2 matrices, the projection `R·p·scale + pos`, and Python's float `%`
  over reals.
- `Canvas`: draw calls, and the `Screen` class that records them in order.
- `Layering`: the azimuths, the front/back flags and the selection made by each draw pass.
- `Shapes`: the local outlines and the fin-instance outlines, as functions.
- `Rocket`: the classes `Nose`, `Body`, `Fin` and `Rocket`, whose methods overwrite their
  cached polygons and append to a `Screen`.
- `Scenes`: the `Scene` and `AppMain` classes. Pure functions specify their transitions and
  the window clamp.

Trigonometry is not interpreted. A `Trig` value supplies π and the cosine and sine
functions. All arithmetic is on reals.

The module docstring of `visualizer/rocket.py` puts the origin at the bottom of the rocket.
The code centres it at the midpoint, and the model follows the code.

Two behaviours of the code are kept as written:

- The roll is converted from degrees to radians twice: once in `Rocket.update` and once
  more in `Fin.update` (`Rocket.FinRollConvertedTwice`). As a consequence the fin flags
  repeat every 64800/π degrees of roll, not every 360° (`Rocket.FinFlagsRollPeriod`,
  `Rocket.WholeTurnsOfRollMoveFins`).
- A fin's radial attachment offset is added before the cosine foreshortening, so the
  offset is foreshortened too (`Shapes.FinVertexFromOutline`).

## Model

| member | source | states |
|---|---|---|
| `Geometry.ProjectAllAt` | visualizer/rocket.py:288-291 | the projected outline has the stored points' length and order, and vertex k is `(a·x + b·y)·scale + pos.x, (c·x + d·y)·scale + pos.y` |
| `Geometry.ProjectAllIdentity` | visualizer/rocket.py:288-291 | with the pitch matrix built from cosine 1 and sine 0, unit scale and a zero centre, projection gives back the stored points |
| `Geometry.ProjectAffine` | visualizer/rocket.py:288-291 | projection is affine: a sum of offsets projects to the projected point plus the projected offset, with the centre added once |
| `Geometry.ProjectScaling` | visualizer/rocket.py:204-214 | multiplying the scale by k multiplies every vertex's offset from the pixel centre by k |
| `Geometry.FModRange` | visualizer/rocket.py:433-435 | Python's float `%` by a positive modulus lies in [0, m) |
| `Geometry.FModOfSmall` | visualizer/rocket.py:433-435 | a value already in [0, m) is its own remainder |
| `Geometry.FModPeriodic` | visualizer/rocket.py:433-435 | adding a whole number of periods leaves the remainder unchanged |
| `Canvas.OutlinedAllAt` | visualizer/rocket.py:445-448 | drawing a list of polygons makes two calls per polygon: at 2j the fill of polygon j, at 2j+1 its black outline of width 1 |
| `Canvas.Screen.Polygon` | visualizer/rocket.py:300-301 | one polygon call is appended to the screen's call sequence |
| `Canvas.Screen.DrawOutlined` | visualizer/rocket.py:300-301 | the fill of the polygon and then its black one-pixel outline are appended |
| `Layering.IsForwardPeriodic` | visualizer/rocket.py:433-435 | the front/back flag depends only on the azimuth modulo 2π |
| `Layering.IsForwardInFirstTurn` | visualizer/rocket.py:433-435 | within [0, 2π) an instance is forward exactly on [0, π] |
| `Layering.IsForwardBoundaries` | visualizer/rocket.py:433-435 | azimuths 0 and π count as forward, and just past π is backward |
| `Layering.ZOrderPeriodic` | visualizer/rocket.py:421-435 | shifting a fin's azimuth offset β (the roll after its second conversion) by 2πk leaves every instance's flag unchanged |
| `Layering.ZOrderFourFinsAtZeroRoll` | visualizer/rocket.py:421-435 | four fins at zero roll give the flags [true, true, true, false] |
| `Layering.SelectedCommonPrefix` | visualizer/rocket.py:445-445 | like `zip`, a pass depends only on the common prefix of the polygon and flag lists |
| `Layering.SelectedAtIndices` | visualizer/rocket.py:445-448 | a draw pass emits exactly the instances at the selected indices, in index order |
| `Layering.IndicesSound` | visualizer/rocket.py:445-448 | every selected index is in range, carries the wanted flag, and the indices strictly increase |
| `Layering.IndicesComplete` | visualizer/rocket.py:458-461 | every index carrying the wanted flag is selected |
| `Layering.PassesPartition` | visualizer/rocket.py:437-461 | the backward and forward passes split the instances: each index lands in the pass its flag names and in no other, and the two passes together are as long as the list |
| `Layering.EveryInstanceDrawn` | visualizer/rocket.py:359-364 | across the backward and forward passes every instance is drawn, once in total |
| `Shapes.NoseAxialsAt` | visualizer/rocket.py:261-262 | the axial positions after the tip are n-1 equally spaced values shifted by -total/2 |
| `Shapes.NoseAxialLast` | visualizer/rocket.py:261-262 | the last nose sample sits at nose_length - total/2 |
| `Shapes.NoseOutline` | visualizer/rocket.py:260-275 | n samples give 2n-1 vertices. Vertex 0 is the tip (0, -total/2). Vertex m has radius m on the right, and vertex 2n-1-m mirrors it with the radius negated at the same axial position |
| `Shapes.BodyPoints` | visualizer/rocket.py:319-325 | the tube is four corners with radial ±radius; corners 0 and 3 are at position - total/2, and corners 1 and 2 one tube length further |
| `Shapes.FinPointsAt` | visualizer/rocket.py:385-395 | the fin outline keeps its length, and point k is (shape.y + start.y, shape.x + start.x - total/2); the parent position takes no part |
| `Shapes.FinPointsRoundTrip` | visualizer/rocket.py:385-395 | the axis swap and offset are undone by the inverse conversion, in both directions |
| `Shapes.FinPolygonsAt` | visualizer/rocket.py:421-432 | there are n instances of len(points) vertices each, and vertex k of instance i is the point with its radial part times cos(2πi/n + β), rotated, scaled and moved |
| `Shapes.FinInstanceIdentity` | visualizer/rocket.py:424-432 | with cosine 1, the pitch matrix built from cosine 1 and sine 0, unit scale and a zero centre an instance is the stored outline |
| `Shapes.FinInstanceEdgeOn` | visualizer/rocket.py:424-432 | an instance with cosine 0 collapses onto the projected rocket axis |
| `Shapes.FinVertexFromOutline` | visualizer/rocket.py:385-432 | the radial attachment offset is foreshortened together with the outline, because it is added before the cosine scaling |
| `Shapes.BodyProjectionIsParallelogram` | visualizer/rocket.py:319-347 | the projected tube is a parallelogram: opposite edges are equal vectors |
| `Rocket.DrawingSizeScalesOffsets` | visualizer/rocket.py:204-206 | scaling the drawing-size fraction by k scales every projected vertex's offset from the centre by k |
| `Rocket.FinRollConvertedTwice` | visualizer/rocket.py:199-422 | the azimuth offset a fin uses is the roll in degrees times (π/180)² |
| `Rocket.FinFlagsRollPeriod` | visualizer/rocket.py:199-435 | the fin flags repeat when the roll argument changes by 64800·k/π degrees |
| `Rocket.WholeTurnsOfRollMoveFins` | visualizer/rocket.py:199-435 | for π between 3.14 and 3.15, a single fin is forward at roll 0 but backward at roll 31·360° |
| `Rocket.Nose.constructor` | visualizer/rocket.py:250-277 | the stored nose points are the outline of `Shapes.NosePoints`, and the polygon starts empty |
| `Rocket.Nose.Update` | visualizer/rocket.py:279-291 | the polygon is replaced by the projection of every stored point, in order |
| `Rocket.Nose.Draw` | visualizer/rocket.py:293-301 | the screen gains a white fill and a black outline of the polygon |
| `Rocket.Fin.constructor` | visualizer/rocket.py:368-399 | the stored points are the converted outline, and there are no instances and no flags yet |
| `Rocket.Fin.Update` | visualizer/rocket.py:401-435 | the n_fin instance polygons and their flags are replaced by those for the roll converted once more to radians; there is one flag per polygon |
| `Rocket.Fin.DrawBackward` | visualizer/rocket.py:437-448 | the screen gains a blue fill and a black outline for each backward instance, in index order |
| `Rocket.Fin.DrawForward` | visualizer/rocket.py:450-461 | the screen gains a blue fill and a black outline for each forward instance, in index order |
| `Rocket.DrawSelected` | visualizer/rocket.py:445-448 | the loop over the zipped polygons and flags emits a blue fill and a black outline for each instance whose flag matches, in index order, and stops at the shorter list |
| `Rocket.Body.constructor` | visualizer/rocket.py:305-327 | the stored corners are `Shapes.BodyPoints`, with no fins and no polygon |
| `Rocket.Body.AttachFin` | visualizer/rocket.py:176-187 | the fin set is appended to the tube's fins |
| `Rocket.Body.Update` | visualizer/rocket.py:329-350 | the tube polygon is the projection of its corners; every fin is updated with the same frame and roll, and the fin list is unchanged |
| `Rocket.Body.Draw` | visualizer/rocket.py:352-364 | the screen gains every fin's backward pass, then the tube, then every fin's forward pass |
| `Rocket.DrawFins` | visualizer/rocket.py:359-364 | one loop over the fins appends each fin's pass in list order |
| `Rocket.Rocket.constructor` | visualizer/rocket.py:84-84 | a new rocket draws at 0.8 of the window height |
| `Rocket.Rocket.Update` | visualizer/rocket.py:189-218 | the nose and every tube get the same scale h/length·drawing_size·cos(yaw), pitch rotation and centre window·frac; every fin gets the roll in radians, and no fin list changes |
| `Rocket.Rocket.Draw` | visualizer/rocket.py:220-232 | the screen gains the nose, then each tube with its fins, in list order |
| `Rocket.DrawBodies` | visualizer/rocket.py:231-232 | the loop over the tubes appends each tube's calls in list order |
| `Scenes.BaseResponse` | visualizer/scene.py:46-61 | only a confirmed Escape produces a request, and that request is EXIT |
| `Scenes.BriefingResponse` | visualizer/scene.py:442-466 | the briefing scene returns EXIT iff Escape is confirmed, TOP iff Backspace, GAME iff Return, and nothing otherwise |
| `Scenes.BriefingView` | visualizer/scene.py:333-347 | a new briefing scene takes the simulation branch iff it was given an existing `.ork` path |
| `Scenes.ChooseOrkFile` | visualizer/scene.py:275-282 | the chosen path is stored; the state becomes BRIEFING iff the path is an existing `.ork` file, and is unchanged otherwise |
| `Scenes.SwitchedScene` | visualizer/scene.py:176-201 | the scene is kept iff the request is the current state, EXIT or QUIT. Otherwise the new scene reports the requested state and is of the matching class. A new briefing scene takes the simulation branch iff the old scene was a top scene holding an existing `.ork` file |
| `Scenes.SwitchIdempotent` | visualizer/scene.py:183-184 | repeating a switch to the installed state keeps the scene |
| `Scenes.ChoosingOrkFileLeadsToBriefing` | visualizer/scene.py:176-282 | from the top scene, choosing an existing `.ork` file makes the scene report BRIEFING, and the next switch calls `BriefingScene(chosen)`, which takes the simulation branch; any other choice keeps reporting TOP |
| `Scenes.BriefingFromNonTopSkipsSimulation` | visualizer/scene.py:192-197 | a briefing scene installed after a non-top scene is built without a file and does not take the simulation branch |
| `Scenes.Scene.TopScene` | visualizer/scene.py:235-241 | a top scene reports TOP and holds the empty path |
| `Scenes.Scene.BriefingScene` | visualizer/scene.py:333-347 | a briefing scene reports BRIEFING and takes the simulation branch iff its path is an existing `.ork` file |
| `Scenes.Scene.GameScene` | visualizer/scene.py:510-515 | a game scene reports GAME |
| `Scenes.Scene.Exec` | visualizer/scene.py:80-102 | running a scene returns the scene's own state |
| `Scenes.Scene.SetOrkFile` | visualizer/scene.py:275-282 | the top scene's file choice changes the scene as `ChooseOrkFile` says |
| `Scenes.Scene.BackToTop` | visualizer/scene.py:436-440 | the state becomes TOP and nothing else changes |
| `Scenes.Scene.HandleBriefingEvent` | visualizer/scene.py:442-466 | returns `BriefingResponse`; a press on the back widgets sets TOP, and nothing else changes |
| `Scenes.Trunc` | visualizer/scene.py:146-150 | `int()` truncates toward zero: the result is within one of the value, on the zero side |
| `Scenes.WiderThanTarget` | visualizer/scene.py:139-142 | the float comparison width/height > 16/9 holds iff 9·width > 16·height |
| `Scenes.AdjustedSizeExact` | visualizer/scene.py:128-152 | a wide request keeps its height and gets the largest width with 9·w <= 16·h; otherwise the width is kept and the height truncates 9/16 of it |
| `Scenes.AdjustedSizeBounds` | visualizer/scene.py:142-152 | the clamp never enlarges either dimension, keeps at least one, and keeps both iff the request is exactly 16:9 |
| `Scenes.AdjustedSizeNotIdempotent` | visualizer/scene.py:128-152 | 1000x562 clamps to 999x562, which clamps again to 999x561 |
| `Scenes.AppMain.constructor` | visualizer/scene.py:106-126 | the window starts at half the screen width with the truncated 9/16 height, showing a new top scene in state TOP |
| `Scenes.AppMain.AdjustWindowSize` | visualizer/scene.py:128-152 | returns the clamp of the request and sets the window to it; the scene is unchanged |
| `Scenes.AppMain.SwitchScene` | visualizer/scene.py:176-201 | the current state becomes the request. The scene object is kept or replaced by a fresh one as `SwitchedScene` says |
| `Scenes.InitialSizeStability` | visualizer/scene.py:112-152 | the opening window is a fixed point of the clamp iff 9/16 of its width is whole |
| `Scenes.InitialSizeExample` | visualizer/scene.py:112-152 | a 1366-pixel screen opens 683x384, which the clamp turns into 682x384 |

## Left out

- `Rocket.__init__` and `Rocket.run_simulation` (visualizer/rocket.py:48-187).
  - They do JVM start-up, OpenRocket jar lookup and download, settings and `.ork` parsing:
    foreign calls and I/O.
  - The model's constructors take the nose radii, tube extents, fin outlines and fin counts
    as given numbers.
  - The appending of a fin set to a tube (rocket.py:176) is `Body.AttachFin`.
- Rendering. `pg.draw.polygon` is recorded as a call, not rasterised, and colours are three
  symbolic values.
- Canvas.Screen.DrawOutlined: pygame's `pg.draw.polygon` raises `ValueError` for a polygon
  of fewer than 3 points, but the model records the two calls anyway. The same holds for
  `Rocket.Nose.Draw`, `Rocket.Body.Draw` and `Rocket.DrawSelected`.
  - This happens when a nose or tube is drawn before its first update: the polygon is still
    empty (rocket.py:277, 327).
  - It also happens for a nose built from a single radius sample, and for a fin outline of
    fewer than 3 points.
  - That error path is not modelled.
- `pg.display.get_window_size` is a parameter of `Rocket.Update`.
- `pg.display.Info` is a parameter of the `AppMain` constructor.
- `pg.display.set_mode` is the assignment of `windowSize`.
- Floating point. Reals stand for numpy floats, and `cos`, `sin` and π are supplied by the
  caller.
  - Rounding in `np.radians`, in the float `16/9` and in the `%` comparison is not modelled.
- Rocket.Fin.Update: requires `n_fin >= 1`, because the source divides by the fin count.
- Rocket.FrameScale: requires a non-zero rocket length. The source divides by the length, and
  a zero length raises `ZeroDivisionError`; that exception path is not modelled.
- Rocket.Rocket.Update: requires a non-zero rocket length, for the same division.
- Scenes.AdjustedSize: requires a non-zero height. The source divides by the height, and a
  zero height raises `ZeroDivisionError`; that exception path is not modelled. A negative
  height is computed as the source computes it.
- Scenes.AppMain.AdjustWindowSize: requires a non-zero height, for the same division.
- Scenes.WiderThanTarget: stated for positive heights only. A negative height flips the
  comparison.
- Scenes.AdjustedSizeExact: stated for positive heights only.
- Scenes.AdjustedSizeBounds: stated for positive heights only.
- The application loop `AppMain.run` and `handle_common_events`.
  - They are event polling, the 60 fps clock, and dispatch from a scene's returned state or
    reported state to `switch_scene`.
  - The model provides the pieces that loop composes: `Scene.Exec`, the event handlers and
    `AppMain.SwitchScene`.
- Scene `update`/`draw` widget calls, the fonts and `src/ui_elements.py`.
  - A widget's hit test is reduced to the `onBack` flag of a mouse event.
  - The briefing scene's rocket animation (`update` with the tick clock) is not modelled.
- `TopScene.handle_event` (scene.py:284-302). It is only the base Escape handling, which is
  `BaseResponse`, plus widget callbacks that open the file dialog.
- The file dialog itself (`open_ork_file`) is left out; its result is the `chosen` parameter
  of `SetOrkFile`.
- The exit dialog (`ask_whether_to_exit`) is left out; its answer is the `confirmExit`
  parameter.
- `Path.exists()` is an input. A `FilePath` carries its existence and suffix.
- `BriefingScene.run_simulation` is left out. It is UI text, and it reads rocket attributes
  that `visualizer/rocket.py` never sets. The model records only whether the simulation
  branch was taken.
- Scenes.SwitchedScene: a switch to BRIEFING from a top scene holding an existing `.ork`
  file is modelled as completing, but in the code as shown it does not complete. The same
  applies to `Scenes.BriefingView`, `Scenes.Scene.BriefingScene`,
  `Scenes.ChoosingOrkFileLeadsToBriefing` and `Scenes.AppMain.SwitchScene`.
  - The simulation branch (scene.py:343-344) reads `self.rocket.radius` (scene.py:387) and
    the flight results (scene.py:407-409). `visualizer/rocket.py` never sets these.
  - So the constructor raises `AttributeError`, `switch_scene` never assigns the scene or
    the current state (scene.py:195, 201), and the exception leaves the application loop.
  - `runsSimulation` therefore means "took the branch at scene.py:343-344", not "built a
    finished scene". The exception path is not modelled.
- `GameScene.handle_event` is only the base handling, which is `BaseResponse`.
- `print` calls are left out. They are diagnostic output only.
- These files are not part of this model:
  - `src/scene.py`, an older revision of the event loop;
  - `visualizer/dialogs.py`, `visualizer/fonts.py`, `src/fonts.py` and `main.py`;
  - `tests/test_rocket.py`, which calls a loader method that the shown `visualizer/rocket.py`
    does not define.
