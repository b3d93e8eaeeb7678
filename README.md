# fractal_egui: the render cache and the window manager, verified

fractal_egui is a fractal viewer built on egui and wgpu. One fractal fills the screen. Any number of
secondary fractals live in floating windows, and each window has its own settings panel. This project
models the sequential bookkeeping at the core of the viewer and proves properties about it:

- **The per-fractal render cache** (`Mandelbrot`, module `Mandelbrot`). The camera, the image size,
  the `needs_update` dirty flag, the size of the GPU texture and the uniform record last uploaded.
  The setters, `pan`, `zoom` and `render_to_texture` are modelled as methods of a class. `Valid()`
  is the cache invariant: whenever the flag is clear, the texture has the current size and the
  uniforms describe the current state. `Params::new` is a pure function.
- **The lazy-render protocol** (`Fractal::render_to_ui`, module `Fractal`). It matches the image
  size to the available area, renders only when the cache is stale, then paints.
- **The window manager** (`App`, module `App`). Creation, one frame of `App::update`, the
  index-based removal loop over the two parallel vectors with `swap_remove`, exchanging a window
  with the main one, and the two "add" buttons. Everything the UI toolkit decides in a frame is an
  input (`FrameInput`, `WindowInput`): the widget responses, the close buttons, the button clicks
  and the space key.

The removal loop (`App.App.ShowWindows`) is proved against `ShowFrom`, a pure recursive definition of
the same loop. `ShowFrom` in turn is related to `Sweep`, an independent reference definition: fold
one window's effect (`ProcessWindow`) over the windows in the order they were visited. The proved
results are:

- every window present at loop entry is visited exactly once (the ghost visit order is a
  permutation of the slots);
- the surviving windows are exactly those `Sweep` keeps, in visit order, together with their
  settings flags;
- the number of survivors is the number of "still open" outcomes;
- the shared point is the one picked by the last response that carried a point;
- the vectors stay parallel;
- window ids stay distinct and below the counter, through swaps, removals and additions.

Numbers on the complex plane are `real`, so the geometry of `pan` and `zoom` is proved in exact
arithmetic. In that setting, a pan moves the point under the cursor along with the cursor, and a
zoom is a scaling about the point under the mouse, which it keeps fixed.

Files:

| file | contents |
|---|---|
| `base.dfy` | `U32`, `Option` |
| `plane.dfy` | `Complex`, `Camera`, `Vec2`, `Camera::default` |
| `vectors.dfy` | `Vec::swap_remove` on sequences and the multiset facts about it |
| `mandelbrot.dfy` | `Params::new`, the pan/zoom geometry, class `Mandelbrot` |
| `fractal.dfy` | `render_to_ui` over `Mandelbrot` |
| `app.dfy` | the window manager |

## Model

| member | source | states |
|---|---|---|
| Plane.DefaultCamera | src/main.rs:68-88 | the default camera is centred on 0 + 0i with real radius 2 |
| Mandelbrot.NewParams | src/fractals/mandelbrot.rs:375-388 | the uniform record carries the camera's centre and radius, the size, z0 and the depth unchanged; its imaginary radius makes pixels square (radius_imag · width = radius_real · height); cycle_depth is u32::MAX |
| Mandelbrot.Panned | src/fractals/mandelbrot.rs:243-245 | the pan formula: the radius is unchanged and a zero pan is the identity |
| Mandelbrot.PannedCenter | src/fractals/mandelbrot.rs:243-245 | a pan by (x, y) pixels moves the centre by (−2x, +2y) pixel widths, with the same pixel width on both axes |
| Mandelbrot.PanKeepsPointUnderCursor | src/fractals/mandelbrot.rs:243-245 | after a pan by `pan`, the plane point drawn at screen offset o + pan is the one that was drawn at o: the image follows the drag |
| Mandelbrot.ZoomedCenter | src/fractals/mandelbrot.rs:255-257 | after pan(−mouse), rescale and pan(mouse), the centre lies at the point under the mouse minus the mouse offset in the new pixel size |
| Mandelbrot.Zoomed | src/fractals/mandelbrot.rs:255-257 | the zoom as pan(−mouse), rescale, pan(mouse): the radius is divided by the factor |
| Mandelbrot.ZoomScalesAboutMouse | src/fractals/mandelbrot.rs:250-259 | a zoom scales the centre's offset from the point under the mouse by 1/zoom |
| Mandelbrot.ZoomKeepsPointUnderMouse | src/fractals/mandelbrot.rs:255-257 | the plane point under the mouse is the same before and after a zoom |
| Mandelbrot.Mandelbrot.constructor | src/fractals/mandelbrot.rs:57-202 | a new instance keeps its arguments and is dirty; its texture already has size (width, height) and its uniforms are those of its state; no render or texture recreation has happened yet |
| Mandelbrot.Mandelbrot.Default | src/fractals/mandelbrot.rs:43-55 | the default instance: default camera, 100 × 100, z0 = 0, depth 1024, dirty |
| Mandelbrot.Mandelbrot.SetWidth | src/fractals/mandelbrot.rs:221-226 | the width becomes w; the flag is raised exactly when w differs from the old width; nothing else changes; the cache invariant is kept |
| Mandelbrot.Mandelbrot.SetHeight | src/fractals/mandelbrot.rs:228-233 | the same for the height |
| Mandelbrot.Mandelbrot.Pan | src/fractals/mandelbrot.rs:235-248 | a zero pan changes nothing; any other pan sets the camera to `Panned` (radius unchanged) and raises the flag; size, texture and uniforms are untouched |
| Mandelbrot.Mandelbrot.Zoom | src/fractals/mandelbrot.rs:250-259 | a factor of 1 changes nothing; any other factor sets the camera to `Zoomed` (radius divided by the factor) and raises the flag; the size is untouched |
| Mandelbrot.Mandelbrot.RenderToTexture | src/fractals/mandelbrot.rs:261-348 | the flag is cleared; camera, size, z0 and depth are unchanged; the uploaded uniforms are `Params::new` of the state; the texture has size (width, height) and is recreated exactly when its old size differed; one render is submitted |
| Fractal.RenderToUi | src/fractals/fractal.rs:15-39 | afterwards the size equals the available area and the cache is clean; a render happens exactly when the instance was dirty or its size differed (otherwise texture and uniforms are untouched); the texture is recreated exactly when its size differed |
| Fractal.RenderTwiceSameArea | src/fractals/fractal.rs:19-32 | two frames painted with the same available size render at most once, and the second is always a cache hit |
| Vectors.SwapRemove | src/main.rs:237-239 | `swap_remove(i)` shortens the vector by one, moves the last element into slot i and leaves every other slot alone |
| Vectors.SwapRemoveMultiset | src/main.rs:237-239 | `swap_remove(i)` removes exactly one copy of the element in slot i |
| Vectors.SwapRemoveSplit | src/main.rs:237-242 | after `swap_remove(i)`, the slots before i are those already visited, and the slots from i on hold the elements not yet visited |
| Vectors.ExchangeMultiset | src/main.rs:229-239 | exchanging slot i with an outside value x keeps the contents of both together; if slot i (now holding x) is then swap-removed, the value moved out plus the remaining vector is the original contents of the vector |
| App.ProcessWindow | src/main.rs:204-236 | one window's pass: the point changes only when the response carries one; the window stays iff its close button was not pressed; it either keeps its fractal and the main window stays, or it exchanges places (settings flags included) with the main window; the exchange happens exactly when the panel was raised (old flag or "open settings") and "swap" was pressed, and then the new main window carries the panel's `is_settings_open`; without it, the main window is unchanged and the slot's flag ends as (raised and `is_settings_open`) |
| App.Advance | src/main.rs:204-242 | one pass on slot i of the two vectors: they stay parallel and lose one slot exactly when the window was closed |
| App.AdvanceKeepsWindows | src/main.rs:229-239 | a pass neither invents nor duplicates a window: main plus list afterwards is contained in main plus list before. A kept window leaves main plus list as they were. A closed window without a swap removes exactly the window shown. A closed window after a swap removes the former main window. |
| App.Sweep | src/main.rs:198-243 | the reference meaning of the loop, one window's effect folded over the visit order: it only appends survivors after those kept before, at most one per visit |
| App.ShowFrom | src/main.rs:199-243 | the loop from slot i leaves parallel vectors and records one visit per UI outcome |
| App.ShowFromDone | src/main.rs:199-243 | the visits made earlier only head the visit order and do not affect the windows |
| App.ShowFromSweep | src/main.rs:199-243 | from slot i on, the loop visits each remaining slot exactly once; the windows, main window and point it leaves are what `Sweep` computes from the visited prefix, in visit order |
| App.ShowAllSweep | src/main.rs:198-243 | the whole loop visits every window once; the kept windows and their flags, the main window and the point are those of `Sweep`; the number of windows left is the number of "open" outcomes; the point is the last one picked |
| App.SweepKeptCount | src/main.rs:237-242 | exactly the windows whose outcome says "open" survive |
| App.SweepPoint | src/main.rs:219-221 | the point after the loop is the one chosen by the last response that carried a point, or the one before the loop |
| App.IdsOkSwap | src/main.rs:229-234 | exchanging two windows keeps the ids distinct and below the counter |
| App.IdsOkSwapRemove | src/main.rs:237-239 | `swap_remove` keeps the ids distinct and below the counter |
| App.SwapMainKeepsIds | src/main.rs:229-234 | exchanging the main window with slot i keeps all ids distinct |
| App.DropKeepsIds | src/main.rs:237-239 | closing slot i keeps the remaining ids distinct |
| App.IdsOkAdd | src/main.rs:280-297 | a window created with the counter as its id keeps ids distinct and below the bumped counter |
| App.NewSettings | src/main.rs:280-297 | the "add" buttons push one closed settings flag per new window |
| App.App.constructor | src/main.rs:138-153 | the initial state: main window with id 0, no secondary windows, settings closed, point 0, overlay shown, counter 1, and the invariant holds |
| App.App.AddFractal | src/main.rs:280-288 | one push onto each vector (the new window takes the counter as its id, its settings closed), counter + 1, nothing else changes, the invariant is kept |
| App.App.VisitWindow | src/main.rs:204-236 | the body of the loop up to the close decision. The point is replaced only by a response carrying one. With the panel raised and "swap" pressed, main and slot i exchange their fractals and settings flags. Otherwise only the slot's flag changes, to (old or "open") and the panel's `is_settings_open`. |
| App.App.ShowWindow | src/main.rs:204-242 | one iteration of the loop: the new state is `Advance` of the old one, including the `swap_remove` of both vectors when the window was closed |
| App.App.ShowWindows | src/main.rs:198-243 | the loop terminates; its final state and the ghost visit order are those of `ShowFrom` from slot 0 |
| App.App.ShowOverlay | src/main.rs:190-301 | main settings panel, loop and add buttons: every window is visited once; the windows left are `Sweep`'s survivors followed by the new windows; the count and the point are as the outcomes say; the counter grows by the number of windows added |
| App.App.AddWindows | src/main.rs:280-297 | each clicked button pushes one window (Mandelbrot first, then Julia) and one closed flag, and bumps the counter once |
| App.App.Update | src/main.rs:156-301 | one frame. Space toggles the overlay. The main response can only raise the main settings flag, and the main settings panel can lower it. The point follows the last response that carries one. Without the overlay, no window changes. With it, the `ShowOverlay` result holds. The invariant (parallel vectors, distinct ids) is kept. |

## Left out

- GPU resources: the device, queue, shader module, buffers, bind group, pipeline, command encoder and
  queue submission are not modelled. The texture is represented by its size, and the uniform buffer
  by the last `Params` written. The ghost counters `textureRecreations` and `renders` record how
  often the texture is replaced and how often a render is submitted.
- The WGSL shader, the escape-time iteration and the colouring are not modelled. `MandelbrotColoring`
  is accepted by the constructor and unused there, as in the source. `texture_id` and the painting at
  the end of `render_to_ui` (src/fractals/fractal.rs:34-38) are not modelled either.
- egui/eframe: windows, areas, labels, the `main()` bootstrap, the frame-time history `dts` and its
  formatting are not modelled. The outcome of every widget is an input of `App.App.Update`. The
  "global" header is collapsible, so its buttons are modelled as clicks that may or may not happen.
- The two sliders that edit `point` (src/main.rs:271-278) are widget-driven edits of the point and
  are not modelled.
- The fractal module (`Fractal`, `FractalType`, `ui`, `settings_ui`, `name`, `camera()`) is not part
  of this model. A window's fractal is seen only through its id and type. Its responses are inputs.
- `Fractal` is a trait. `render_to_ui` is modelled over `Mandelbrot`, the one implementation this
  model contains.
- `f32` arithmetic: camera numbers are exact reals, and the `available_width() as _` float-to-int
  conversions are not modelled (the available size is given as a `U32`). The pan and zoom fixed-point
  properties hold only in exact arithmetic.
- Mandelbrot.Mandelbrot.Pan: requires a non-zero width and height. The source divides by them in
  `f32`, where zero gives infinities or NaN.
- Mandelbrot.Mandelbrot.Zoom: requires a non-zero width, a non-zero height and a non-zero factor, for
  the same reason.
- Mandelbrot.Mandelbrot.RenderToTexture: requires a non-zero width and height. wgpu rejects a texture
  of size zero, and `Params::new` divides by the width.
- Mandelbrot.Mandelbrot.constructor: requires a non-zero width and height. The source comment at
  src/fractals/mandelbrot.rs:47 says this too.
- Fractal.RenderToUi: requires a non-zero available size. It also does not state that a setter is
  called only when its dimension differs, because a setter called with an equal value changes nothing.
- App.App.AddFractal: `fractal_counter` is a `usize`; its overflow is not modelled.
- App.App.Update: `|input.windows|` must equal the number of windows. This reflects that there is one
  outcome per window shown, not a demand of the source.
- `src/fractals/mandelbrot.rs:50` calls `Complex::zero()`, which is commented out in `src/main.rs`
  (lines 30-35); the two files come from different revisions. The model uses `Complex::ZERO`
  everywhere.
- Mandelbrot.PointAt: the screen-to-plane orientation (offsets from the image centre, x right is
  +re, y down is −im) is assumed, because the shader that fixes it is not part of this model. The pan
  and zoom fixed-point lemmas depend on it.
- Window conservation is proved for one pass of the loop (`App.AdvanceKeepsWindows`). For the whole
  loop, the model gives the exact `Sweep` characterization and the id-distinctness invariant, but no
  separate conservation lemma.
