# Escape-time fractal renderer — verified model

This project models two parts of a small Rust fractal renderer.

- **Interactive viewer (`Window`, window.dfy).** This is the control logic of the event loop. The view state sent to the compute shader is the centre, the horizontal and vertical range in the complex plane, and the iteration budget. The viewer also keeps the configured window size, the last cursor position and the off-screen storage texture.
  - A close request ends the loop.
  - A resize to a non-zero size stores the size and rebuilds the texture. It re-derives the vertical range from the aspect ratio, uploads the uniforms and requests a redraw.
  - A cursor move records the position.
  - A left or right press zooms by 0.5 or 2.0 around the point under the cursor, unless the precision guard refuses a zoom-in. The zoom then recomputes a clamped iteration budget.
  - Each frame dispatches one compute workgroup per 8×8 tile.

  `Viewer` is a class whose fields the event methods update. Its contracts refer to pure transition functions (`PressOutcome`, `PanZoom`, `ResizeView`, `TileCount`), and lemmas state the properties of those functions. Two ghost fields record what the GPU and the window observe:
  - `uploads` logs every uniform-buffer write.
  - `redrawRequested` is set wherever the handler asks for a redraw.

- **One-shot renderer (`Fractal`, fractal.dfy).** This part covers:
  - the recursive escape-time count for z ↦ z² + c, which stops when |z|² > 4 or at the cap;
  - the integer pixel→offset map;
  - the Mandelbrot and Julia coordinate maps;
  - the depth→colour rule;
  - the nested loops that fill a 2160×1440 (Mandelbrot) or 1920×1440 (Julia) image.

  The loops are a method over a two-dimensional array. A ghost trace of the writes is proved to visit every pixel exactly once.

Floating-point numbers (`f32`, `f64`) are idealised as `real`. Under that idealisation the zoom anchoring and the aspect formula hold exactly. The truncating `as u8` / `as i32` casts become `.Floor`, which agrees with truncation on the non-negative values involved. The library call `x.powf(0.3)` is a function-valued parameter (`pow03`) of the viewer. Nothing is assumed about it, so only the clamp around it is checked. One monotonicity lemma, `BudgetMonotone`, takes monotonicity of `pow03` as a hypothesis.

Three behaviours of the code are worth stating directly:
- A Mandelbrot point with c = 3 + 3i gets depth 1. The iteration starts at z = 0, which is inside radius 2, so one step to z = 3 + 3i is taken before the escape (`FarPointEscapesAfterOneStep`).
- The zoom floor is an absolute constant, 6.2·10⁻⁵. It is tested before scaling, so one zoom-in may still take the range below it (`GuardTestedBeforeScaling`).
- A refused zoom prints a message (logging is not modelled) and returns with no state change. There is no error value, and no resource-allocation rollback, device-lost handling or surface-acquire retry, so the model has none either.

## Model

| member | source | states |
|---|---|---|
| `Fractal.NormSq` | src/fractal.rs:123 | the squared magnitude used by the escape test is never negative |
| `Fractal.Step` | src/fractal.rs:127-128 | one step of z ↦ z² + c; from z = 0 it lands on c, and it keeps a real orbit real |
| `Fractal.Depth` | src/fractal.rs:115-131 | terminates with measure cap − depth; started at or below the cap the result lies in [depth, cap]; at or past the cap it is depth itself |
| `Fractal.DepthImmediateExit` | src/fractal.rs:123-125 | past the cap or with |z|² > 4 on entry, the depth is returned without iterating |
| `Fractal.DepthFirstEscapeFrom` | src/fractal.rs:115-131 | from level d, every iterate before the result stays within radius 2, and below the cap the iterate at the result is outside it |
| `Fractal.DepthIsFirstEscape` | src/fractal.rs:123-130 | the result is the cap iff all iterates z₀…z_{cap−1} have |z|² ≤ 4; otherwise it is the index of the first iterate with |z|² > 4 |
| `Fractal.OriginOrbitStaysAtZero` | src/fractal.rs:127-128 | with c = 0, every iterate of 0 is 0 |
| `Fractal.OriginNeverEscapesFrom` | src/fractal.rs:123-130 | with c = 0 and z = 0, the count reaches the cap from any starting level at or below it |
| `Fractal.OriginReachesBudget` | src/fractal.rs:123-130 | c = 0, z = 0 gives exactly the cap |
| `Fractal.FarPointEscapesAfterOneStep` | src/fractal.rs:115-131 | the Mandelbrot start z = 0 with c = 3 + 3i gives depth 1 for every cap ≥ 1 |
| `Fractal.PixelOffset` | src/fractal.rs:26-27 | the offset of pixel (imgX, imgY) lies in [−w/2, w − w/2) × [h/2 − h, h/2 − 1], row 0 maps to the top row h/2 − 1, and `ImageCoords` inverts it |
| `Fractal.PixelOffsetOnto` | src/fractal.rs:26-27 | every offset of the centred rectangle comes from a pixel inside the image, so the map is a bijection |
| `Fractal.EvenSizeOffsetRange` | src/fractal.rs:81-82 | for even sizes the offsets lie in [−w/2, w/2) × [−h/2, h/2) |
| `Fractal.MandelbrotC` | src/fractal.rs:32-33 | the centre offset maps to center + (0.5, −0.5)·scale; for a positive zoom, offsets right of or below the centre move c right or down of the given centre (non-zero zoom required) |
| `Fractal.MandelbrotCAffine` | src/fractal.rs:32-33 | the Mandelbrot map moves c by scale/zoom per pixel along each axis and not at all along the other |
| `Fractal.MandelbrotCInjective` | src/fractal.rs:32-33 | for a non-zero zoom, distinct offsets give distinct c |
| `Fractal.JuliaZ` | src/fractal.rs:87-88 | the starting z is zero on an axis exactly when the offset is zero on that axis |
| `Fractal.JuliaZInjective` | src/fractal.rs:87-88 | distinct offsets give distinct starting z |
| `Fractal.Colour` | src/fractal.rs:44-59 | white at or above the cap; below it red 0, green ⌊255·depth/cap⌋ ≤ 254 and blue ⌊153·depth/cap⌋ ≤ 152, so a pixel is white exactly when it is in the set |
| `Fractal.AlphaBelowOne` | src/fractal.rs:53-56 | below the cap, depth/cap lies in [0, 1), so the u8 casts never saturate |
| `Fractal.MandelbrotPixel` | src/fractal.rs:35-57 | a Mandelbrot pixel is white exactly when every iterate of 0 under its c before the cap stays within radius 2 |
| `Fractal.JuliaPixel` | src/fractal.rs:89-104 | a Julia pixel is white exactly when every iterate of its starting z before the cap stays within radius 2 |
| `Fractal.ScanOrderInImage` | src/fractal.rs:24-25 | the column-by-column scan has w·h entries, all inside the image |
| `Fractal.ScanOrderAt` | src/fractal.rs:24-25 | the scan visits pixel (x, y) at position x·h + y |
| `Fractal.ScanOrderDistinct` | src/fractal.rs:24-25 | the scan never visits a pixel twice |
| `Fractal.ScanOrderExactlyOnce` | src/fractal.rs:79-80 | each pixel of the image is visited exactly once, at position x·h + y |
| `Fractal.PaintImage` | src/fractal.rs:24-63 | the nested loops yield a fresh w × h image whose pixel (x, y) is the kernel's colour for its centred offset, written in scan order |
| `Fractal.Mandelbrot` | src/fractal.rs:5-66 | a fresh 2160 × 1440 image; each pixel is the colour of the depth of z = 0 under its c; each pixel is written once |
| `Fractal.Julia` | src/fractal.rs:68-113 | a fresh 1920 × 1440 image; each pixel is the colour of the depth of its scaled offset under the fixed c; each pixel is written once |
| `Window.InitialUniforms` | src/window.rs:58-63 | the opening view has positive ranges and a budget of 500, inside [128, 5000] |
| `Window.ZoomFactor` | src/window.rs:228-232 | only left and right map to a factor, which is positive and below 1 exactly for left |
| `Window.ZoomBlocked` | src/window.rs:234 | a factor of at least 1 (zoom-out) is never blocked, and neither is a range at or above the floor |
| `Window.Norm` | src/window.rs:239-240 | a cursor inside the window normalises into [−0.5, 0.5] |
| `Window.PointUnder` | src/window.rs:242-243 | the viewport centre shows the view's centre; a cursor right of centre shows a larger real part, and a cursor above centre a larger imaginary part |
| `Window.IterationBudget` | src/window.rs:251-253 | the budget is always within [128, 5000] |
| `Window.PanZoom` | src/window.rs:239-253 | the point under the cursor is the same before and after; both ranges are scaled by the factor and stay positive; the budget is within [128, 5000] |
| `Window.PressOutcome` | src/window.rs:223-262 | a zoom happens iff the event is a press of right, or of left with range ≥ 6.2·10⁻⁵; a zoom keeps the cursor point fixed, scales by 0.5 (left) or 2.0 (right) and bounds the budget |
| `Window.ResizeView` | src/window.rs:212-213 | the new vertical range equals rangeX · height / width; centre, horizontal range and budget are unchanged |
| `Window.TileCount` | src/window.rs:316-319 | 8·g ≥ n and 8·(g − 1) < n: the tiles cover the axis with less than one spare tile |
| `Window.IgnoredEventsChangeNothing` | src/window.rs:223-232 | a release or a press of any other button produces no zoom |
| `Window.GuardTestedBeforeScaling` | src/window.rs:233-246 | from a range exactly at the floor, a zoom-in is accepted and lands below the floor; the next zoom-in is refused |
| `Window.ZoomOutNeverBlocked` | src/window.rs:233-246 | a right press always zooms and doubles the range |
| `Window.CentreClickFromInitialView` | src/window.rs:239-249 | from the opening view, a left click at the exact viewport centre gives range (1.75, 1.0) and keeps centre (−0.75, 0) |
| `Window.BudgetMonotone` | src/window.rs:251-253 | for a monotone power function, a smaller range never gets a smaller budget |
| `Window.ResizeIdempotent` | src/window.rs:190-217 | resizing twice to the same size gives the same view as resizing once |
| `Window.ResizeTo1024By768` | src/window.rs:212-213 | a resize to 1024 × 768 sets the vertical range to rangeX · 768/1024 |
| `Window.LeftClicks` | src/window.rs:223-262 | any number of left clicks keeps the horizontal range positive |
| `Window.ZoomInEventuallyRefused` | src/window.rs:233-237 | repeated left clicks at a fixed cursor eventually reach a click that the precision guard refuses |
| `Window.Viewer.constructor` | src/window.rs:58-72 | the viewer starts with the initial view uploaded once, cursor (0, 0), a texture of the window size and no redraw requested |
| `Window.Viewer.OnCloseRequested` | src/window.rs:189 | the loop is told to exit and nothing else changes |
| `Window.Viewer.OnResized` | src/window.rs:190-218 | a zero width or height changes nothing; otherwise it stores the size, rebuilds the texture at that size, applies `ResizeView`, logs one upload and requests a redraw; the budget never changes |
| `Window.Viewer.OnCursorMoved` | src/window.rs:219-221 | only the cursor position changes; the uniforms, the size and the redraw flag are untouched |
| `Window.Viewer.OnMouseInput` | src/window.rs:223-262 | when `PressOutcome` refuses, the uniforms, the upload log and the redraw flag are unchanged; otherwise the uniforms become the zoomed view, one upload is logged and a redraw is requested |
| `Window.Viewer.OnRedrawRequested` | src/window.rs:316-319 | the frame dispatches ⌈width/8⌉ × ⌈height/8⌉ workgroups, covering the storage texture with less than one spare tile per axis, and clears the redraw request |

## Left out

- GPU work is not modelled. This covers instance, adapter, device, surface, shader, pipeline and sampler creation (src/window.rs:21-185), and per-frame bind groups, command encoding, submission and present (src/window.rs:265-343). Only the dispatch arithmetic of a frame is modelled. The storage texture is a token that carries its size.
- The compute shader (shader.wgsl) is not part of this model. The per-pixel GPU kernel and its handling of out-of-range lanes in partial tiles are therefore not checked.
- Floating-point rounding and the difference between f32 and f64 are not modelled. Arithmetic is exact over `real`.
- `powf(0.3)` is not modelled. It is the opaque parameter `pow03`, and only the clamp around it is checked.
- `Window.Viewer.constructor` requires a non-zero initial size. The code takes the window's initial inner size unchecked, and for a zero size its f32 divisions would give infinities or NaN, which `real` cannot represent.
- `Fractal.Mandelbrot` requires a non-zero zoom factor, for the same reason: an f64 division by zero gives an infinity.
- `Window.IterationBudget` does not model NaN. `clamp` keeps NaN and `as i32` then gives 0, but that cannot arise with a positive range over `real`.
- The stack depth of the escape-time recursion is not modelled. The source recurses once per iteration and Rust does not guarantee tail-call elimination, so a large `max_recursion` may overflow the stack, while `Fractal.Depth` is total for every cap.
- Logging with `println!`, and panics from `.unwrap()` / `.expect()`, are not modelled.
- The event loop's concurrency and the ordering of the GPU queue are outside this sequential model. The model covers the handlers' effect, one event at a time.
- src/input.rs is not modelled: it is stdin prompts that count tokens and parse floats.
- src/main.rs is not modelled: it is stdin I/O and a file save. Its calls to `mandelbrot` / `julia` pass one argument, which does not match the signatures of those functions.
- Saving the image to a file is not modelled.
