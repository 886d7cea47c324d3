/** The Mandelbrot object of src/Mandelbrot.cpp: the visible rectangle of
    the complex plane, the iteration bound, the zoom accumulator and the
    image buffer that mandy fills pixel by pixel. */
module Fractal {
  import opened Palette
  import opened Escape

  /** The visible rectangle [minRe, maxRe] x [minIm, maxIm]. */
  datatype Rect = Rect(minRe: real, maxRe: real, minIm: real, maxIm: real)

  /** Both axes of r are non-empty intervals. */
  predicate Ordered(r: Rect) {
    r.minRe < r.maxRe && r.minIm < r.maxIm
  }

  class Viewport {
    /** Image size fixed by the constructor (m_width, m_height). */
    const width: int
    const height: int
    /** m_image: one colour per pixel, indexed [x, y]. */
    const image: array2<Color>

    var minRe: real
    var maxRe: real
    var minIm: real
    var maxIm: real
    var maxIterations: int
    var zoom: real

    function Bounds(): Rect
      reads this
    {
      Rect(minRe, maxRe, minIm, maxIm)
    }

    /** The state every handler of the window keeps: a non-empty
        rectangle, a bound of at least 1 and a positive zoom accumulator.
        The bound part is what Render and SetColor need (RenderReady). */
    ghost predicate Valid()
      reads this
    {
      Ordered(Bounds()) && maxIterations >= 1 && zoom > 0.0
    }

    /** The default view: real axis [-2.5, 1], imaginary axis [-1, 1],
        128 iterations, zoom 1, and a black 1920 x 1080 image. */
    constructor ()
      ensures width == 1920 && height == 1080
      ensures fresh(image) && image.Length0 == width && image.Length1 == height
      ensures forall x, y :: 0 <= x < image.Length0 && 0 <= y < image.Length1 ==> image[x, y] == Black
      ensures Bounds() == Rect(-2.5, 1.0, -1.0, 1.0)
      ensures maxIterations == 128 && zoom == 1.0
      ensures Valid()
    {
      width, height := 1920, 1080;
      maxIterations := 128;
      minRe, maxRe, minIm, maxIm := -2.5, 1.0, -1.0, 1.0;
      zoom := 1.0;
      image := new Color[1920, 1080]((x, y) => Black);
    }

    method SetMinRe(v: real)
      modifies this`minRe
      ensures minRe == v
    {
      minRe := v;
    }

    method SetMaxRe(v: real)
      modifies this`maxRe
      ensures maxRe == v
    {
      maxRe := v;
    }

    method SetMinIm(v: real)
      modifies this`minIm
      ensures minIm == v
    {
      minIm := v;
    }

    method SetMaxIm(v: real)
      modifies this`maxIm
      ensures maxIm == v
    {
      maxIm := v;
    }

    method SetMaxIterations(v: int)
      modifies this`maxIterations
      ensures maxIterations == v
    {
      maxIterations := v;
    }

    method SetZoom(v: real)
      modifies this`zoom
      ensures zoom == v
    {
      zoom := v;
    }

    /** The plane point of pixel (x, y) on a screen of screenX x screenY
        pixels: each axis mapped linearly into the rectangle. */
    function PixelPoint(x: int, y: int, screenX: int, screenY: int): (c: Complex)
      requires screenX != 0 && screenY != 0
      reads this
      ensures x == 0 ==> c.re == minRe
      ensures y == 0 ==> c.im == minIm
    {
      Complex(PlaneCoord(minRe, maxRe, x as real, screenX),
              PlaneCoord(minIm, maxIm, y as real, screenY))
    }

    /** The colour mandy gives pixel (x, y). */
    ghost function Shade(x: int, y: int, screenX: int, screenY: int): Color
      requires 0 <= x < screenX && 0 <= y < screenY && maxIterations >= 1
      reads this
    {
      PixelColor(EscapeTime(PixelPoint(x, y, screenX, screenY), maxIterations), maxIterations)
    }

    /** set_color: colours pixel (x, y) for the escape count iters. */
    method SetColor(iters: int, x: int, y: int)
      requires maxIterations >= 1 && 0 <= iters <= maxIterations
      requires 0 <= x < image.Length0 && 0 <= y < image.Length1
      modifies image
      ensures image[x, y] == PixelColor(iters, maxIterations)
      ensures forall i, j :: 0 <= i < image.Length0 && 0 <= j < image.Length1 && (i != x || j != y) ==>
        image[i, j] == old(image[i, j])
    {
      var mu := Mu(iters, maxIterations);
      var color := Interp(mu, Anchors());
      image[x, y] := color;
    }

    /** mandy: colours every pixel of a screenX x screenY screen, row by
        row, and leaves the rest of the image and every field alone. */
    method Render(screenX: int, screenY: int)
      requires maxIterations >= 1
      requires screenX <= image.Length0 && screenY <= image.Length1
      modifies image
      ensures forall x, y :: 0 <= x < screenX && 0 <= y < screenY ==>
        image[x, y] == Shade(x, y, screenX, screenY)
      ensures forall x, y :: 0 <= x < image.Length0 && 0 <= y < image.Length1 && !(x < screenX && y < screenY) ==>
        image[x, y] == old(image[x, y])
    {
      var y := 0;
      while y < screenY
        invariant 0 <= y && (y <= screenY || y == 0)
        invariant forall i, j :: 0 <= i < screenX && 0 <= j < y ==> image[i, j] == Shade(i, j, screenX, screenY)
        invariant forall i, j :: 0 <= i < image.Length0 && 0 <= j < image.Length1 && !(i < screenX && j < y) ==>
          image[i, j] == old(image[i, j])
      {
        var x := 0;
        while x < screenX
          invariant 0 <= x && (x <= screenX || x == 0)
          invariant forall i, j :: 0 <= i < screenX && 0 <= j < y ==> image[i, j] == Shade(i, j, screenX, screenY)
          invariant forall i :: 0 <= i < x ==> image[i, y] == Shade(i, y, screenX, screenY)
          invariant forall i, j ::
            0 <= i < image.Length0 && 0 <= j < image.Length1 && !(i < screenX && j < y) && !(j == y && i < x) ==>
            image[i, j] == old(image[i, j])
        {
          var c := PixelPoint(x, y, screenX, screenY);
          var iters := EscapeCount(c, maxIterations);
          SetColor(iters, x, y);
          x := x + 1;
        }
        y := y + 1;
      }
    }
  }

  /** The invariant the constructor sets up and every handler keeps gives
      Render its precondition on the bound. */
  lemma RenderReady(vp: Viewport)
    requires vp.Valid()
    ensures vp.maxIterations >= 1
  {
  }

  /** A pixel that maps onto 0 is drawn black: 0 never escapes, its count
      is the bound, and set_color remaps that count to the first anchor. */
  lemma OriginIsBlack(maxIterations: int)
    requires maxIterations >= 1
    ensures PixelColor(EscapeTime(Zero, maxIterations), maxIterations) == Black
  {
    OriginNeverEscapes(maxIterations);
    InSetIsBlack(maxIterations, maxIterations);
  }

  /** A pixel whose point lies outside the radius-2 disc escapes at once and
      is drawn black as well. */
  lemma FarPointIsBlack(c: Complex, maxIterations: int)
    requires maxIterations >= 1 && Escaped(c)
    ensures PixelColor(EscapeTime(c, maxIterations), maxIterations) == Black
  {
    FarPointEscapesAtOnce(c, maxIterations);
    InSetIsBlack(0, maxIterations);
  }
}
