/**
 * The one-shot escape-time renderer: the bounded iteration z -> z^2 + c,
 * the integer pixel -> offset map, the Mandelbrot and Julia coordinate maps,
 * the depth -> colour rule, and the two nested loops that fill an image.
 *
 * Floating-point numbers are idealised as `real`; the truncating `as u8`
 * casts are `.Floor`, which agrees with truncation on the non-negative
 * values that reach them.
 */
module Fractal {

  /** A point of the complex plane. */
  datatype Complex = Complex(re: real, im: real)

  const Zero: Complex := Complex(0.0, 0.0)

  /** Image height shared by both renderers. */
  const IMAGE_H: nat := 1440
  /** Mandelbrot image width, (3 * IMAGE_H) / 2. */
  const MANDELBROT_W: nat := (3 * IMAGE_H) / 2
  /** Julia image width, (4 * IMAGE_H) / 3. */
  const JULIA_W: nat := (4 * IMAGE_H) / 3
  /** Width of one pixel in the complex plane at zoom 1. */
  const MANDELBROT_SCALE: real := 2.0 / 1440.0
  const JULIA_SCALE: real := 3.0 / 1440.0

  // ---------------------------------------------------------------------
  // Escape-time kernel

  /** |z|^2 */
  function NormSq(z: Complex): (n: real)
    ensures n >= 0.0
  {
    z.re * z.re + z.im * z.im
  }

  /** One step of the quadratic map z -> z^2 + c. */
  function Step(c: Complex, z: Complex): (next: Complex)
    ensures z == Zero ==> next == c
    ensures z.im == 0.0 && c.im == 0.0 ==> next.im == 0.0
  {
    Complex(z.re * z.re - z.im * z.im + c.re, 2.0 * z.im * z.re + c.im)
  }

  /** The k-th iterate of z under z -> z^2 + c (the 0-th is z itself). */
  function Orbit(c: Complex, z: Complex, k: nat): Complex
    decreases k
  {
    if k == 0 then z else Orbit(c, Step(c, z), k - 1)
  }

  /**
   * The recursive escape-time count: stops at the iteration cap or as soon as
   * |z|^2 exceeds 4, otherwise steps once and counts one more level.
   */
  function Depth(c: Complex, z: Complex, depth: nat, maxIterations: nat): (r: nat)
    decreases maxIterations - depth
    ensures depth <= maxIterations ==> depth <= r <= maxIterations
    ensures depth >= maxIterations ==> r == depth
  {
    if depth >= maxIterations || NormSq(z) > 4.0 then depth
    else Depth(c, Step(c, z), depth + 1, maxIterations)
  }

  /** On entry past the cap, or with z already outside radius 2, no step is taken. */
  lemma DepthImmediateExit(c: Complex, z: Complex, depth: nat, maxIterations: nat)
    requires depth >= maxIterations || NormSq(z) > 4.0
    ensures Depth(c, z, depth, maxIterations) == depth
  {
  }

  /**
   * Started at level d <= cap, the count r is the level of the first iterate
   * outside radius 2, or the cap when every iterate before the cap stays inside.
   */
  lemma {:induction false} DepthFirstEscapeFrom(c: Complex, z: Complex, d: nat, maxIterations: nat)
    requires d <= maxIterations
    ensures var r := Depth(c, z, d, maxIterations);
      d <= r <= maxIterations &&
      (forall j :: 0 <= j < r - d ==> NormSq(Orbit(c, z, j)) <= 4.0) &&
      (r < maxIterations ==> NormSq(Orbit(c, z, r - d)) > 4.0)
    decreases maxIterations - d
  {
    var r := Depth(c, z, d, maxIterations);
    if d >= maxIterations || NormSq(z) > 4.0 {
      assert r == d;
      assert Orbit(c, z, 0) == z;
    } else {
      DepthFirstEscapeFrom(c, Step(c, z), d + 1, maxIterations);
      assert r == Depth(c, Step(c, z), d + 1, maxIterations);
      forall j | 0 <= j < r - d
        ensures NormSq(Orbit(c, z, j)) <= 4.0
      {
        if j > 0 {
          assert Orbit(c, z, j) == Orbit(c, Step(c, z), j - 1);
        }
      }
      if r < maxIterations {
        assert Orbit(c, z, r - d) == Orbit(c, Step(c, z), r - d - 1);
      }
    }
  }

  /**
   * Started at level 0: the result is the cap exactly when every iterate
   * z_0 .. z_{cap-1} stays within radius 2; otherwise it is the index of the
   * first iterate outside, and all earlier ones stay inside.
   */
  lemma DepthIsFirstEscape(c: Complex, z: Complex, maxIterations: nat)
    ensures var r := Depth(c, z, 0, maxIterations);
      (r == maxIterations <==> forall j :: 0 <= j < maxIterations ==> NormSq(Orbit(c, z, j)) <= 4.0) &&
      (r < maxIterations ==>
         NormSq(Orbit(c, z, r)) > 4.0 && forall j :: 0 <= j < r ==> NormSq(Orbit(c, z, j)) <= 4.0)
  {
    DepthFirstEscapeFrom(c, z, 0, maxIterations);
  }

  /** The origin is a fixed point for c = 0, so it never escapes. */
  lemma {:induction false} OriginNeverEscapesFrom(d: nat, maxIterations: nat)
    requires d <= maxIterations
    ensures Depth(Zero, Zero, d, maxIterations) == maxIterations
    decreases maxIterations - d
  {
    if d < maxIterations {
      assert Step(Zero, Zero) == Zero;
      OriginNeverEscapesFrom(d + 1, maxIterations);
    }
  }

  /** With c = 0 the orbit of the origin never leaves it. */
  lemma {:induction false} OriginOrbitStaysAtZero(k: nat)
    ensures Orbit(Zero, Zero, k) == Zero
    decreases k
  {
    if k > 0 {
      assert Step(Zero, Zero) == Zero;
      OriginOrbitStaysAtZero(k - 1);
    }
  }

  /** c = 0, z = 0 reaches the full iteration budget. */
  lemma OriginReachesBudget(maxIterations: nat)
    ensures Depth(Zero, Zero, 0, maxIterations) == maxIterations
  {
    OriginNeverEscapesFrom(0, maxIterations);
  }

  /** The Mandelbrot start z = 0 with c = 3 + 3i takes one step to 3 + 3i and then escapes. */
  lemma FarPointEscapesAfterOneStep(maxIterations: nat)
    requires maxIterations >= 1
    ensures Depth(Complex(3.0, 3.0), Zero, 0, maxIterations) == 1
  {
    var c := Complex(3.0, 3.0);
    assert Step(c, Zero) == c;
    assert NormSq(c) == 18.0;
  }

  // ---------------------------------------------------------------------
  // Pixel coordinates

  /**
   * Image column/row -> integer offset from the image centre, with row 0 at
   * the top: x = imgX - w/2, y = h/2 - 1 - imgY.
   */
  function PixelOffset(imgX: int, imgY: int, w: nat, h: nat): (p: (int, int))
    requires 0 <= imgX < w && 0 <= imgY < h
    ensures -(w / 2) <= p.0 < w - w / 2
    ensures h / 2 - h <= p.1 <= h / 2 - 1
    ensures imgY == 0 ==> p.1 == h / 2 - 1
    ensures ImageCoords(p, w, h) == (imgX, imgY)
  {
    (imgX - w / 2, h / 2 - 1 - imgY)
  }

  /** The inverse of PixelOffset: offset from the centre -> image column/row. */
  function ImageCoords(p: (int, int), w: nat, h: nat): (int, int)
  {
    (p.0 + w / 2, h / 2 - 1 - p.1)
  }

  /** Every offset in the centred rectangle comes from exactly one pixel. */
  lemma PixelOffsetOnto(p: (int, int), w: nat, h: nat)
    requires -(w / 2) <= p.0 < w - w / 2 && h / 2 - h <= p.1 <= h / 2 - 1
    ensures var q := ImageCoords(p, w, h);
      0 <= q.0 < w && 0 <= q.1 < h && PixelOffset(q.0, q.1, w, h) == p
  {
  }

  /** For the even sizes used here, the offsets fill [-w/2, w/2) x [-h/2, h/2). */
  lemma EvenSizeOffsetRange(imgX: int, imgY: int, w: nat, h: nat)
    requires w % 2 == 0 && h % 2 == 0
    requires 0 <= imgX < w && 0 <= imgY < h
    ensures var p := PixelOffset(imgX, imgY, w, h);
      -(w / 2) <= p.0 < w / 2 && -(h / 2) <= p.1 < h / 2
  {
  }

  /** The Mandelbrot parameter for a pixel offset: c = center + (offset / zoom +- 0.5) * scale. */
  function MandelbrotC(center: Complex, zoomFactor: real, x: int, y: int): (c: Complex)
    requires zoomFactor != 0.0
    ensures x == 0 && y == 0 ==>
      c == Complex(center.re + 0.5 * MANDELBROT_SCALE, center.im - 0.5 * MANDELBROT_SCALE)
    ensures zoomFactor > 0.0 && x > 0 ==> c.re > center.re
    ensures zoomFactor > 0.0 && y < 0 ==> c.im < center.im
  {
    Complex(center.re + ((x as real / zoomFactor) + 0.5) * MANDELBROT_SCALE,
            center.im + ((y as real / zoomFactor) - 0.5) * MANDELBROT_SCALE)
  }

  /** The Mandelbrot map is affine: one pixel to the right or up moves c by scale / zoom. */
  lemma MandelbrotCAffine(center: Complex, zoomFactor: real, x: int, y: int)
    requires zoomFactor != 0.0
    ensures MandelbrotC(center, zoomFactor, x + 1, y).re - MandelbrotC(center, zoomFactor, x, y).re
            == MANDELBROT_SCALE / zoomFactor
    ensures MandelbrotC(center, zoomFactor, x, y + 1).im - MandelbrotC(center, zoomFactor, x, y).im
            == MANDELBROT_SCALE / zoomFactor
    ensures MandelbrotC(center, zoomFactor, x, y + 1).re == MandelbrotC(center, zoomFactor, x, y).re
    ensures MandelbrotC(center, zoomFactor, x + 1, y).im == MandelbrotC(center, zoomFactor, x, y).im
  {
  }

  /** Distinct pixel offsets get distinct Mandelbrot parameters. */
  lemma MandelbrotCInjective(center: Complex, zoomFactor: real, x1: int, y1: int, x2: int, y2: int)
    requires zoomFactor != 0.0
    requires MandelbrotC(center, zoomFactor, x1, y1) == MandelbrotC(center, zoomFactor, x2, y2)
    ensures x1 == x2 && y1 == y2
  {
  }

  /** The Julia starting point for a pixel offset: z = offset * scale (c is fixed). */
  function JuliaZ(x: int, y: int): (z: Complex)
    ensures z.re == 0.0 <==> x == 0
    ensures z.im == 0.0 <==> y == 0
  {
    Complex(x as real * JULIA_SCALE, y as real * JULIA_SCALE)
  }

  /** Distinct pixel offsets get distinct Julia starting points. */
  lemma JuliaZInjective(x1: int, y1: int, x2: int, y2: int)
    requires JuliaZ(x1, y1) == JuliaZ(x2, y2)
    ensures x1 == x2 && y1 == y2
  {
  }

  // ---------------------------------------------------------------------
  // Colour

  type Byte = x: int | 0 <= x < 256

  datatype Rgb = Rgb(red: Byte, green: Byte, blue: Byte)

  const White: Rgb := Rgb(255, 255, 255)

  /**
   * Depth -> colour: white at the cap; below it no red, and green and blue
   * proportional to depth / cap along a fixed gradient.
   */
  function Colour(depth: nat, maxIterations: nat): (col: Rgb)
    ensures depth >= maxIterations ==> col == White
    ensures depth < maxIterations ==>
      col.red == 0 && col.green <= 254 && col.blue <= 152 &&
      col.green as real <= 255.0 * depth as real / maxIterations as real < col.green as real + 1.0 &&
      col.blue as real <= 153.0 * depth as real / maxIterations as real < col.blue as real + 1.0
    ensures col == White <==> depth >= maxIterations
  {
    if depth >= maxIterations then White
    else
      var alpha := depth as real / maxIterations as real;
      AlphaBelowOne(depth, maxIterations);
      var g := (alpha * 255.0).Floor;
      var b := (alpha * 153.0).Floor;
      Rgb(0, g, b)
  }

  /** 0 <= depth / cap < 1 below the cap, so the gradient never saturates. */
  lemma AlphaBelowOne(depth: nat, maxIterations: nat)
    requires depth < maxIterations
    ensures var alpha := depth as real / maxIterations as real;
      0.0 <= alpha < 1.0 &&
      0 <= (alpha * 255.0).Floor <= 254 && 0 <= (alpha * 153.0).Floor <= 152 &&
      alpha * 255.0 == 255.0 * depth as real / maxIterations as real &&
      alpha * 153.0 == 153.0 * depth as real / maxIterations as real
  {
  }

  // ---------------------------------------------------------------------
  // Filling an image

  /** The order in which the nested loops visit pixels: column by column, top to bottom. */
  function ScanOrder(w: nat, h: nat): (s: seq<(int, int)>)
    decreases w
  {
    if w == 0 then [] else ScanOrder(w - 1, h) + Column(w - 1, h)
  }

  /** The first n pixels of column x, top to bottom. */
  function Column(x: int, n: nat): (s: seq<(int, int)>)
  {
    seq(n, j requires 0 <= j < n => (x, j))
  }

  /** The scan has w * h entries, all inside the image. */
  lemma {:induction false} ScanOrderInImage(w: nat, h: nat)
    ensures |ScanOrder(w, h)| == w * h
    ensures forall k :: 0 <= k < |ScanOrder(w, h)| ==>
      0 <= ScanOrder(w, h)[k].0 < w && 0 <= ScanOrder(w, h)[k].1 < h
    decreases w
  {
    if w > 0 {
      ScanOrderInImage(w - 1, h);
      assert ScanOrder(w, h) == ScanOrder(w - 1, h) + Column(w - 1, h);
      assert (w - 1) * h + h == w * h;
    }
  }

  /** The scan puts pixel (x, y) at position x * h + y. */
  lemma {:induction false} ScanOrderAt(w: nat, h: nat, x: int, y: int)
    requires 0 <= x < w && 0 <= y < h
    ensures x * h + y < |ScanOrder(w, h)| && ScanOrder(w, h)[x * h + y] == (x, y)
    decreases w
  {
    ScanOrderInImage(w, h);
    ScanOrderInImage(w - 1, h);
    var prev := ScanOrder(w - 1, h);
    assert ScanOrder(w, h) == prev + Column(w - 1, h);
    if x < w - 1 {
      ScanOrderAt(w - 1, h, x, y);
    } else {
      assert x * h == |prev|;
    }
  }

  /** No pixel appears twice in the scan. */
  lemma {:induction false} ScanOrderDistinct(w: nat, h: nat)
    ensures forall i, j :: 0 <= i < j < |ScanOrder(w, h)| ==> ScanOrder(w, h)[i] != ScanOrder(w, h)[j]
    decreases w
  {
    if w > 0 {
      ScanOrderDistinct(w - 1, h);
      ScanOrderInImage(w - 1, h);
      var prev := ScanOrder(w - 1, h);
      var s := ScanOrder(w, h);
      assert s == prev + Column(w - 1, h);
      forall i, j | 0 <= i < j < |s|
        ensures s[i] != s[j]
      {
        if j >= |prev| && i < |prev| {
          assert s[i] == prev[i] && s[i].0 < w - 1;
          assert s[j] == Column(w - 1, h)[j - |prev|];
        }
      }
    }
  }

  /** Every pixel of the w x h image is visited by the scan exactly once. */
  lemma ScanOrderExactlyOnce(w: nat, h: nat, x: int, y: int)
    requires 0 <= x < w && 0 <= y < h
    ensures var s := ScanOrder(w, h);
      x * h + y < |s| && s[x * h + y] == (x, y) &&
      forall k :: 0 <= k < |s| && s[k] == (x, y) ==> k == x * h + y
  {
    ScanOrderAt(w, h, x, y);
    ScanOrderDistinct(w, h);
  }

  /**
   * The nested loops shared by both renderers: for every column, for every
   * row, compute the offset of the pixel from the image centre and write the
   * kernel's colour for it. `writes` records the pixels in the order written.
   */
  method PaintImage(w: nat, h: nat, kernel: ((int, int)) -> Rgb)
    returns (img: array2<Rgb>, ghost writes: seq<(int, int)>)
    ensures fresh(img) && img.Length0 == w && img.Length1 == h
    ensures forall x, y :: 0 <= x < w && 0 <= y < h ==> img[x, y] == kernel(PixelOffset(x, y, w, h))
    ensures writes == ScanOrder(w, h)
  {
    img := new Rgb[w, h]((_, _) => White);
    writes := [];
    var imgX := 0;
    while imgX < w
      invariant 0 <= imgX <= w
      invariant forall x, y :: 0 <= x < imgX && 0 <= y < h ==> img[x, y] == kernel(PixelOffset(x, y, w, h))
      invariant writes == ScanOrder(imgX, h)
    {
      var imgY := 0;
      while imgY < h
        invariant 0 <= imgY <= h
        invariant forall x, y :: 0 <= x < imgX && 0 <= y < h ==> img[x, y] == kernel(PixelOffset(x, y, w, h))
        invariant forall y :: 0 <= y < imgY ==> img[imgX, y] == kernel(PixelOffset(imgX, y, w, h))
        invariant writes == ScanOrder(imgX, h) + Column(imgX, imgY)
      {
        img[imgX, imgY] := kernel(PixelOffset(imgX, imgY, w, h));
        assert Column(imgX, imgY + 1) == Column(imgX, imgY) + [(imgX, imgY)];
        writes := writes + [(imgX, imgY)];
        imgY := imgY + 1;
      }
      assert ScanOrder(imgX + 1, h) == ScanOrder(imgX, h) + Column(imgX, h);
      imgX := imgX + 1;
    }
  }

  /** The colour of one Mandelbrot pixel: z starts at 0, c comes from the offset. */
  function MandelbrotPixel(maxIterations: nat, center: Complex, zoomFactor: real, p: (int, int)): (col: Rgb)
    requires zoomFactor != 0.0
    ensures var c := MandelbrotC(center, zoomFactor, p.0, p.1);
      col == White <==> forall j :: 0 <= j < maxIterations ==> NormSq(Orbit(c, Zero, j)) <= 4.0
  {
    DepthIsFirstEscape(MandelbrotC(center, zoomFactor, p.0, p.1), Zero, maxIterations);
    Colour(Depth(MandelbrotC(center, zoomFactor, p.0, p.1), Zero, 0, maxIterations), maxIterations)
  }

  /** The colour of one Julia pixel: c is fixed, z starts at the scaled offset. */
  function JuliaPixel(maxIterations: nat, c: Complex, p: (int, int)): (col: Rgb)
    ensures col == White <==> forall j :: 0 <= j < maxIterations ==> NormSq(Orbit(c, JuliaZ(p.0, p.1), j)) <= 4.0
  {
    DepthIsFirstEscape(c, JuliaZ(p.0, p.1), maxIterations);
    Colour(Depth(c, JuliaZ(p.0, p.1), 0, maxIterations), maxIterations)
  }

  /** Renders the Mandelbrot set into a fresh 2160 x 1440 image, each pixel written once. */
  method Mandelbrot(maxRecursion: nat, realCenter: real, imaginaryCenter: real, zoomFactor: real)
    returns (img: array2<Rgb>, ghost writes: seq<(int, int)>)
    requires zoomFactor != 0.0
    ensures fresh(img) && img.Length0 == 2160 && img.Length1 == 1440
    ensures forall x, y :: 0 <= x < 2160 && 0 <= y < 1440 ==>
      img[x, y] == MandelbrotPixel(maxRecursion, Complex(realCenter, imaginaryCenter), zoomFactor,
                                   PixelOffset(x, y, 2160, 1440))
    ensures writes == ScanOrder(2160, 1440)
  {
    var center := Complex(realCenter, imaginaryCenter);
    img, writes := PaintImage(MANDELBROT_W, IMAGE_H,
                              p => MandelbrotPixel(maxRecursion, center, zoomFactor, p));
  }

  /** Renders the Julia set for c into a fresh 1920 x 1440 image, each pixel written once. */
  method Julia(maxRecursion: nat, reC: real, imC: real)
    returns (img: array2<Rgb>, ghost writes: seq<(int, int)>)
    ensures fresh(img) && img.Length0 == 1920 && img.Length1 == 1440
    ensures forall x, y :: 0 <= x < 1920 && 0 <= y < 1440 ==>
      img[x, y] == JuliaPixel(maxRecursion, Complex(reC, imC), PixelOffset(x, y, 1920, 1440))
    ensures writes == ScanOrder(1920, 1440)
  {
    var c := Complex(reC, imC);
    img, writes := PaintImage(JULIA_W, IMAGE_H, p => JuliaPixel(maxRecursion, c, p));
  }
}
