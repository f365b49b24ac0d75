/**
 * The interactive viewer's control logic: the view state sent to the GPU
 * (centre, range and iteration budget), the window size, the cursor, and
 * the event handlers that update them (close, resize, cursor move, mouse
 * press), plus the compute-dispatch tile count of each frame.
 *
 * The GPU objects are left out except for the storage texture, which is a
 * token carrying its size. Two ghost fields record what the GPU side
 * observes: `uploads` logs the view state at every uniform-buffer write and
 * `redrawRequested` is set whenever the handler asks the window for a redraw.
 * Single-precision numbers are idealised as `real`.
 */
module Window {

  datatype Option<T> = None | Some(value: T)

  /** The uniform block shared with the compute shader. */
  datatype Uniforms = Uniforms(centerX: real, centerY: real, rangeX: real, rangeY: real, maxIter: int)

  const INITIAL_ITERATIONS: int := 500
  /** Zoom-in is refused once the horizontal range is below this absolute floor. */
  const MIN_ZOOM_RANGE: real := 0.000062
  /** Bounds of the iteration budget after a zoom. */
  const MIN_BUDGET: real := 128.0
  const MAX_BUDGET: real := 5000.0
  /** Edge of the square compute workgroup, in pixels. */
  const TILE: nat := 8

  /** The view the window opens with. */
  function InitialUniforms(): (u: Uniforms)
    ensures u.rangeX > 0.0 && u.rangeY > 0.0 && 128 <= u.maxIter <= 5000
    ensures u.maxIter == INITIAL_ITERATIONS
  {
    Uniforms(-0.75, 0.0, 3.5, 2.0, INITIAL_ITERATIONS)
  }

  datatype ElementState = Pressed | Released

  datatype MouseButton = Left | Right | Middle | Other(id: nat)

  /** The off-screen image the compute pass writes; only its size is modelled. */
  datatype StorageTexture = StorageTexture(width: nat, height: nat)

  // ---------------------------------------------------------------------
  // View-state transitions

  /** Left zooms in by half, right zooms out by two, every other button is ignored. */
  function ZoomFactor(button: MouseButton): (f: Option<real>)
    ensures f.Some? <==> button == Left || button == Right
    ensures f.Some? ==> f.value > 0.0 && (f.value < 1.0 <==> button == Left)
  {
    match button
    case Left => Some(0.5)
    case Right => Some(2.0)
    case _ => None
  }

  /** The precision guard: a zoom-in from a range already below the floor is refused. */
  predicate ZoomBlocked(factor: real, rangeX: real)
    ensures factor >= 1.0 ==> !ZoomBlocked(factor, rangeX)
    ensures rangeX >= MIN_ZOOM_RANGE ==> !ZoomBlocked(factor, rangeX)
  {
    factor < 1.0 && rangeX < MIN_ZOOM_RANGE
  }

  /** A cursor coordinate relative to the viewport, in [-0.5, 0.5] inside the window. */
  function Norm(pos: real, size: nat): (n: real)
    requires size > 0
    ensures 0.0 <= pos <= size as real ==> -0.5 <= n <= 0.5
  {
    pos / size as real - 0.5
  }

  /** The complex-plane point shown at normalised viewport position (nx, ny); y grows downwards on screen. */
  function PointUnder(u: Uniforms, nx: real, ny: real): (p: (real, real))
    ensures nx == 0.0 && ny == 0.0 ==> p == (u.centerX, u.centerY)
    ensures u.rangeX > 0.0 ==> (p.0 > u.centerX <==> nx > 0.0)
    ensures u.rangeY > 0.0 ==> (p.1 > u.centerY <==> ny < 0.0)
  {
    (u.centerX + nx * u.rangeX, u.centerY - ny * u.rangeY)
  }

  /** Clamps x to [lo, hi]. */
  function Clamp(x: real, lo: real, hi: real): (r: real)
    requires lo <= hi
    ensures lo <= r <= hi
    ensures lo <= x <= hi ==> r == x
  {
    if x < lo then lo else if x > hi then hi else x
  }

  /**
   * The iteration budget for a horizontal range: 500 * (3.5 / range)^0.3,
   * clamped to [128, 5000] and truncated. The power is the `pow03` parameter.
   */
  function IterationBudget(rangeX: real, pow03: real -> real): (n: int)
    requires rangeX > 0.0
    ensures 128 <= n <= 5000
  {
    Clamp(INITIAL_ITERATIONS as real * pow03(3.5 / rangeX), MIN_BUDGET, MAX_BUDGET).Floor
  }

  /**
   * The cursor-anchored zoom: take the point under the cursor, scale both
   * ranges by the factor, then re-centre so that the same point is under
   * the cursor, and recompute the iteration budget for the new range.
   */
  function PanZoom(u: Uniforms, nx: real, ny: real, factor: real, pow03: real -> real): (r: Uniforms)
    requires u.rangeX > 0.0 && factor > 0.0
    ensures PointUnder(r, nx, ny).0 == PointUnder(u, nx, ny).0
    ensures PointUnder(r, nx, ny).1 == PointUnder(u, nx, ny).1
    ensures r.rangeX == u.rangeX * factor && r.rangeY == u.rangeY * factor
    ensures r.rangeX > 0.0 && (u.rangeY > 0.0 ==> r.rangeY > 0.0)
    ensures 128 <= r.maxIter <= 5000
  {
    var mouseComplexX := u.centerX + nx * u.rangeX;
    var mouseComplexY := u.centerY - ny * u.rangeY;
    var rangeX := u.rangeX * factor;
    var rangeY := u.rangeY * factor;
    Uniforms(mouseComplexX - nx * rangeX, mouseComplexY + ny * rangeY,
             rangeX, rangeY, IterationBudget(rangeX, pow03))
  }

  /**
   * The view after a mouse-button event, or None when the event leaves
   * everything alone: a release, a button other than left or right, or a
   * zoom-in refused by the precision guard.
   */
  function PressOutcome(u: Uniforms, mouseX: real, mouseY: real, width: nat, height: nat,
                        state: ElementState, button: MouseButton, pow03: real -> real): (r: Option<Uniforms>)
    requires width > 0 && height > 0 && u.rangeX > 0.0
    ensures r.Some? <==> state == Pressed && (button == Right || (button == Left && u.rangeX >= MIN_ZOOM_RANGE))
    ensures r.Some? ==>
      var nx, ny := Norm(mouseX, width), Norm(mouseY, height);
      PointUnder(r.value, nx, ny) == PointUnder(u, nx, ny) &&
      r.value.rangeX == u.rangeX * (if button == Left then 0.5 else 2.0) &&
      r.value.rangeY == u.rangeY * (if button == Left then 0.5 else 2.0) &&
      128 <= r.value.maxIter <= 5000
  {
    if state != Pressed then None
    else match ZoomFactor(button)
      case None => None
      case Some(factor) =>
        if ZoomBlocked(factor, u.rangeX) then None
        else Some(PanZoom(u, Norm(mouseX, width), Norm(mouseY, height), factor, pow03))
  }

  /** Re-derives the vertical range from the horizontal one and the new aspect ratio. */
  function ResizeView(u: Uniforms, width: nat, height: nat): (r: Uniforms)
    requires width > 0 && height > 0
    ensures r.rangeY * width as real == r.rangeX * height as real
    ensures r.centerX == u.centerX && r.centerY == u.centerY && r.rangeX == u.rangeX && r.maxIter == u.maxIter
    ensures u.rangeX > 0.0 ==> r.rangeY > 0.0
  {
    var aspectRatio := width as real / height as real;
    u.(rangeY := u.rangeX / aspectRatio)
  }

  /** The smallest integer not below x. */
  function Ceil(x: real): (c: int)
    ensures (c - 1) as real < x <= c as real
  {
    -((-x).Floor)
  }

  /** Workgroups along one axis: the pixel count divided by the tile size, rounded up. */
  function TileCount(n: nat): (g: nat)
    ensures TILE * g >= n && TILE * g < n + TILE
  {
    Ceil(n as real / TILE as real)
  }

  // ---------------------------------------------------------------------
  // Properties of the transitions

  /** A release, or a press of any button but left and right, changes nothing. */
  lemma IgnoredEventsChangeNothing(u: Uniforms, mouseX: real, mouseY: real, width: nat, height: nat,
                                   state: ElementState, button: MouseButton, pow03: real -> real)
    requires width > 0 && height > 0 && u.rangeX > 0.0
    requires state == Released || (button != Left && button != Right)
    ensures PressOutcome(u, mouseX, mouseY, width, height, state, button, pow03) == None
  {
  }

  /**
   * The floor is tested before scaling: a zoom-in from a range at the floor
   * is allowed and leaves a range below the floor, after which zoom-in is refused.
   */
  lemma GuardTestedBeforeScaling(u: Uniforms, mouseX: real, mouseY: real, width: nat, height: nat,
                                 pow03: real -> real)
    requires width > 0 && height > 0 && u.rangeX == MIN_ZOOM_RANGE
    ensures var r := PressOutcome(u, mouseX, mouseY, width, height, Pressed, Left, pow03);
      r.Some? && r.value.rangeX < MIN_ZOOM_RANGE &&
      PressOutcome(r.value, mouseX, mouseY, width, height, Pressed, Left, pow03) == None
  {
  }

  /** A zoom-out is never refused, however small the range. */
  lemma ZoomOutNeverBlocked(u: Uniforms, mouseX: real, mouseY: real, width: nat, height: nat,
                            pow03: real -> real)
    requires width > 0 && height > 0 && u.rangeX > 0.0
    ensures var r := PressOutcome(u, mouseX, mouseY, width, height, Pressed, Right, pow03);
      r.Some? && r.value.rangeX == 2.0 * u.rangeX
  {
  }

  /** From the opening view, a left click at the exact centre halves the ranges and keeps the centre. */
  lemma CentreClickFromInitialView(width: nat, height: nat, pow03: real -> real)
    requires width > 0 && height > 0
    ensures PressOutcome(InitialUniforms(), width as real / 2.0, height as real / 2.0, width, height,
                         Pressed, Left, pow03)
            == Some(Uniforms(-0.75, 0.0, 1.75, 1.0, IterationBudget(1.75, pow03)))
  {
    var nx := Norm(width as real / 2.0, width);
    assert nx == 0.0 by {
      assert width as real / 2.0 == 0.5 * width as real;
    }
    var ny := Norm(height as real / 2.0, height);
    assert ny == 0.0 by {
      assert height as real / 2.0 == 0.5 * height as real;
    }
  }

  /** Deeper zoom never lowers the budget, provided the power function is monotone. */
  lemma BudgetMonotone(r1: real, r2: real, pow03: real -> real)
    requires 0.0 < r2 <= r1
    requires forall x, y :: 0.0 < x <= y ==> pow03(x) <= pow03(y)
    ensures IterationBudget(r1, pow03) <= IterationBudget(r2, pow03)
  {
  }

  /** Resizing twice to the same size gives the same view as resizing once. */
  lemma ResizeIdempotent(u: Uniforms, width: nat, height: nat)
    requires width > 0 && height > 0
    ensures ResizeView(ResizeView(u, width, height), width, height) == ResizeView(u, width, height)
  {
  }

  /** A resize to 1024 x 768 sets the vertical range to rangeX * 768 / 1024. */
  lemma ResizeTo1024By768(u: Uniforms)
    ensures ResizeView(u, 1024, 768).rangeY == u.rangeX * 768.0 / 1024.0
  {
  }

  /** The view after k left clicks at a fixed cursor, stopping at the first refused one. */
  function LeftClicks(u: Uniforms, mouseX: real, mouseY: real, width: nat, height: nat,
                      pow03: real -> real, k: nat): (r: Uniforms)
    requires width > 0 && height > 0 && u.rangeX > 0.0
    ensures r.rangeX > 0.0
    decreases k
  {
    if k == 0 then u
    else match PressOutcome(u, mouseX, mouseY, width, height, Pressed, Left, pow03)
      case None => u
      case Some(v) => LeftClicks(v, mouseX, mouseY, width, height, pow03, k - 1)
  }

  /** Halving a real of at least one lowers its floor. */
  lemma HalfLowersFloor(a: real)
    requires a >= 1.0
    ensures 0 <= (a / 2.0).Floor < a.Floor
  {
  }

  /** Repeated zoom-in at a fixed cursor is eventually refused by the precision guard. */
  lemma {:induction false} ZoomInEventuallyRefused(u: Uniforms, mouseX: real, mouseY: real,
                                                   width: nat, height: nat, pow03: real -> real)
    returns (k: nat)
    requires width > 0 && height > 0 && u.rangeX > 0.0
    ensures PressOutcome(LeftClicks(u, mouseX, mouseY, width, height, pow03, k),
                         mouseX, mouseY, width, height, Pressed, Left, pow03) == None
    decreases (u.rangeX / MIN_ZOOM_RANGE).Floor
  {
    match PressOutcome(u, mouseX, mouseY, width, height, Pressed, Left, pow03)
    case None =>
      k := 0;
    case Some(v) =>
      assert v.rangeX / MIN_ZOOM_RANGE == (u.rangeX / MIN_ZOOM_RANGE) / 2.0;
      HalfLowersFloor(u.rangeX / MIN_ZOOM_RANGE);
      var k' := ZoomInEventuallyRefused(v, mouseX, mouseY, width, height, pow03);
      k := k' + 1;
  }

  // ---------------------------------------------------------------------
  // The event-loop state

  class Viewer {
    /** The uniform block on the CPU side. */
    var uniforms: Uniforms
    /** The configured surface size. */
    var width: nat
    var height: nat
    /** The last cursor position, in pixels. */
    var mouseX: real
    var mouseY: real
    var texture: StorageTexture
    var exitRequested: bool
    /** x -> x^0.3, a library call the model does not look into. */
    const pow03: real -> real
    /** Every view state written to the GPU uniform buffer, oldest first. */
    ghost var uploads: seq<Uniforms>
    /** Whether the handler has asked the window for a redraw since the last frame. */
    ghost var redrawRequested: bool

    ghost predicate Valid()
      reads this
    {
      width > 0 && height > 0 &&
      uniforms.rangeX > 0.0 && uniforms.rangeY > 0.0 &&
      128 <= uniforms.maxIter <= 5000 &&
      texture == StorageTexture(width, height) &&
      uploads != [] && uploads[|uploads| - 1] == uniforms
    }

    /** Opens the viewer on the initial view; the uniforms are uploaded once. */
    constructor(width: nat, height: nat, pow03: real -> real)
      requires width > 0 && height > 0
      ensures Valid()
      ensures uniforms == InitialUniforms() && uploads == [InitialUniforms()]
      ensures this.width == width && this.height == height && this.pow03 == pow03
      ensures mouseX == 0.0 && mouseY == 0.0
      ensures !exitRequested && !redrawRequested
    {
      this.width := width;
      this.height := height;
      this.pow03 := pow03;
      uniforms := InitialUniforms();
      uploads := [InitialUniforms()];
      mouseX, mouseY := 0.0, 0.0;
      texture := StorageTexture(width, height);
      exitRequested := false;
      redrawRequested := false;
    }

    /** A close request ends the event loop. */
    method OnCloseRequested()
      requires Valid()
      modifies this`exitRequested
      ensures Valid() && exitRequested
    {
      exitRequested := true;
    }

    /**
     * A resize to a non-zero size stores it, rebuilds the storage texture,
     * fixes the vertical range for the new aspect ratio, uploads the uniforms
     * and asks for a redraw. A zero width or height is ignored.
     */
    method OnResized(newWidth: nat, newHeight: nat)
      requires Valid()
      modifies this`width, this`height, this`texture, this`uniforms, this`uploads, this`redrawRequested
      ensures Valid()
      ensures if newWidth > 0 && newHeight > 0 then
          width == newWidth && height == newHeight &&
          texture == StorageTexture(newWidth, newHeight) &&
          uniforms == ResizeView(old(uniforms), newWidth, newHeight) &&
          uploads == old(uploads) + [uniforms] && redrawRequested
        else
          width == old(width) && height == old(height) && texture == old(texture) &&
          uniforms == old(uniforms) && uploads == old(uploads) &&
          redrawRequested == old(redrawRequested)
      ensures uniforms.maxIter == old(uniforms.maxIter)
    {
      if newWidth > 0 && newHeight > 0 {
        width := newWidth;
        height := newHeight;
        texture := StorageTexture(width, height);
        var aspectRatio := width as real / height as real;
        uniforms := uniforms.(rangeY := uniforms.rangeX / aspectRatio);
        uploads := uploads + [uniforms];
        redrawRequested := true;
      }
    }

    /** A cursor move only records the position. */
    method OnCursorMoved(x: real, y: real)
      requires Valid()
      modifies this`mouseX, this`mouseY
      ensures Valid()
      ensures mouseX == x && mouseY == y
      ensures uniforms == old(uniforms) && width == old(width) && height == old(height)
      ensures redrawRequested == old(redrawRequested)
    {
      mouseX, mouseY := x, y;
    }

    /**
     * A mouse-button event: a press of left or right zooms about the cursor
     * unless the precision guard refuses it; then the uniforms are uploaded
     * and a redraw is requested. Anything else changes nothing.
     */
    method OnMouseInput(state: ElementState, button: MouseButton)
      requires Valid()
      modifies this`uniforms, this`uploads, this`redrawRequested
      ensures Valid()
      ensures match PressOutcome(old(uniforms), mouseX, mouseY, width, height, state, button, pow03)
        case None =>
          uniforms == old(uniforms) && uploads == old(uploads) && redrawRequested == old(redrawRequested)
        case Some(v) =>
          uniforms == v && uploads == old(uploads) + [v] && redrawRequested
    {
      if state != Pressed {
        return;
      }
      var zoomFactor: real;
      match button {
        case Left => zoomFactor := 0.5;
        case Right => zoomFactor := 2.0;
        case _ => return;
      }
      assert ZoomFactor(button) == Some(zoomFactor);
      if zoomFactor < 1.0 && uniforms.rangeX < MIN_ZOOM_RANGE {
        return;
      }

      var normX := mouseX / width as real - 0.5;
      var normY := mouseY / height as real - 0.5;

      var mouseComplexX := uniforms.centerX + normX * uniforms.rangeX;
      var mouseComplexY := uniforms.centerY - normY * uniforms.rangeY;

      var rangeX := uniforms.rangeX * zoomFactor;
      var rangeY := uniforms.rangeY * zoomFactor;
      var centerX := mouseComplexX - normX * rangeX;
      var centerY := mouseComplexY + normY * rangeY;
      var maxIter := Clamp(INITIAL_ITERATIONS as real * pow03(3.5 / rangeX), MIN_BUDGET, MAX_BUDGET).Floor;
      ghost var zoomed := PanZoom(uniforms, normX, normY, zoomFactor, pow03);
      assert Uniforms(centerX, centerY, rangeX, rangeY, maxIter) == zoomed;
      uniforms := Uniforms(centerX, centerY, rangeX, rangeY, maxIter);

      uploads := uploads + [uniforms];
      redrawRequested := true;
    }

    /**
     * A frame: dispatches one compute workgroup per 8 x 8 tile of the
     * storage texture, enough to cover it with less than one spare tile per axis.
     */
    method OnRedrawRequested() returns (groupsX: nat, groupsY: nat)
      requires Valid()
      modifies this`redrawRequested
      ensures Valid() && !redrawRequested
      ensures groupsX == TileCount(width) && groupsY == TileCount(height)
      ensures TILE * groupsX >= texture.width && TILE * (groupsX - 1) < texture.width
      ensures TILE * groupsY >= texture.height && TILE * (groupsY - 1) < texture.height
    {
      groupsX := Ceil(width as real / 8.0);
      groupsY := Ceil(height as real / 8.0);
      redrawRequested := false;
    }
  }
}
