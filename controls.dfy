/** The input handlers of src/Window.cpp: click-to-zoom, arrow-key panning
    and wheel-driven scaling of the iteration bound. Each reads the fields
    of the Mandelbrot object and writes them back through its setters. */
module Controls {
  import opened Escape
  import opened Fractal

  datatype MouseButton = LeftButton | RightButton | MiddleButton | XButton1 | XButton2

  /** A mouse-button press at screen position (x, y). */
  datatype MouseButtonEvent = MouseButtonEvent(button: MouseButton, x: int, y: int)

  datatype Key = Left | Right | Up | Down | OtherKey

  /** The events handle_key_press_event is given: a key press with its key
      code, or any other kind of event. */
  datatype Event = KeyPressed(code: Key) | OtherEvent

  /** The conversion of a floating-point value to int: truncation toward
      zero. */
  function Trunc(x: real): (i: int)
    ensures x >= 0.0 ==> 0 <= i && i as real <= x < i as real + 1.0
    ensures x < 0.0 ==> i <= 0 && i as real - 1.0 < x <= i as real
  {
    if x >= 0.0 then x.Floor else -((-x).Floor)
  }

  /** The rectangle zoomAtMousePosition sets: centred on the plane point
      under the mouse, each extent divided by zoomFactor, with half of it
      (for scaleFactor = 2) put on either side of the centre. */
  function ZoomedRect(r: Rect, zoomFactor: real, mouseX: real, mouseY: real,
                      screenX: int, screenY: int, scaleFactor: int): (z: Rect)
    requires zoomFactor != 0.0 && scaleFactor != 0 && screenX != 0 && screenY != 0
    ensures (z.minRe + z.maxRe) / 2.0 == PlaneCoord(r.minRe, r.maxRe, mouseX, screenX)
    ensures (z.minIm + z.maxIm) / 2.0 == PlaneCoord(r.minIm, r.maxIm, mouseY, screenY)
    ensures z.maxRe - z.minRe == 2.0 * ((r.maxRe - r.minRe) / zoomFactor) / scaleFactor as real
    ensures z.maxIm - z.minIm == 2.0 * ((r.maxIm - r.minIm) / zoomFactor) / scaleFactor as real
  {
    var centerX := PlaneCoord(r.minRe, r.maxRe, mouseX, screenX);
    var centerY := PlaneCoord(r.minIm, r.maxIm, mouseY, screenY);
    var newWidth := (r.maxRe - r.minRe) / zoomFactor;
    var newHeight := (r.maxIm - r.minIm) / zoomFactor;
    var s := scaleFactor as real;
    Rect(centerX - newWidth / s, centerX + newWidth / s, centerY - newHeight / s, centerY + newHeight / s)
  }

  /** The clicked point moves to the middle of the screen; it does not
      stay under the mouse. */
  lemma ZoomMovesClickToMiddle(r: Rect, zoomFactor: real, mouseX: real, mouseY: real,
                               screenX: int, screenY: int, scaleFactor: int)
    requires zoomFactor != 0.0 && scaleFactor != 0 && screenX != 0 && screenY != 0
    ensures var z := ZoomedRect(r, zoomFactor, mouseX, mouseY, screenX, screenY, scaleFactor);
      && PlaneCoord(z.minRe, z.maxRe, screenX as real / 2.0, screenX) == PlaneCoord(r.minRe, r.maxRe, mouseX, screenX)
      && PlaneCoord(z.minIm, z.maxIm, screenY as real / 2.0, screenY) == PlaneCoord(r.minIm, r.maxIm, mouseY, screenY)
  {
    var z := ZoomedRect(r, zoomFactor, mouseX, mouseY, screenX, screenY, scaleFactor);
    HalfwayIsMidpoint(z.minRe, z.maxRe, screenX);
    HalfwayIsMidpoint(z.minIm, z.maxIm, screenY);
  }

  /** A click away from the middle does not stay under the mouse: after a
      left click on pixel (0, 0) of the default view on a 1920 x 1080
      screen, pixel (0, 0) shows another point. */
  lemma ZoomDoesNotFixClickedPoint()
    ensures var r := Rect(-2.5, 1.0, -1.0, 1.0);
      var z := ZoomedRect(r, 5.0, 0.0, 0.0, 1920, 1080, 2);
      && PlaneCoord(r.minRe, r.maxRe, 0.0, 1920) == -2.5
      && PlaneCoord(z.minRe, z.maxRe, 0.0, 1920) == -2.85
  {
  }

  /** The middle of the screen maps to the middle of the interval. */
  lemma HalfwayIsMidpoint(lo: real, hi: real, size: int)
    requires size != 0
    ensures PlaneCoord(lo, hi, size as real / 2.0, size) == (lo + hi) / 2.0
  {
    assert (hi - lo) * (size as real / 2.0) / size as real == (hi - lo) / 2.0;
  }

  /** With scaleFactor = 2 each extent is divided by zoomFactor. */
  lemma ZoomDividesExtents(r: Rect, zoomFactor: real, mouseX: real, mouseY: real, screenX: int, screenY: int)
    requires zoomFactor != 0.0 && screenX != 0 && screenY != 0
    ensures var z := ZoomedRect(r, zoomFactor, mouseX, mouseY, screenX, screenY, 2);
      && z.maxRe - z.minRe == (r.maxRe - r.minRe) / zoomFactor
      && z.maxIm - z.minIm == (r.maxIm - r.minIm) / zoomFactor
  {
  }

  /** A positive zoom factor and scale factor keep both intervals non-empty. */
  lemma ZoomKeepsOrdered(r: Rect, zoomFactor: real, mouseX: real, mouseY: real,
                         screenX: int, screenY: int, scaleFactor: int)
    requires zoomFactor > 0.0 && scaleFactor > 0 && screenX != 0 && screenY != 0
    requires Ordered(r)
    ensures Ordered(ZoomedRect(r, zoomFactor, mouseX, mouseY, screenX, screenY, scaleFactor))
  {
    var s := scaleFactor as real;
    PositiveQuotient(r.maxRe - r.minRe, zoomFactor);
    PositiveQuotient((r.maxRe - r.minRe) / zoomFactor, s);
    PositiveQuotient(r.maxIm - r.minIm, zoomFactor);
    PositiveQuotient((r.maxIm - r.minIm) / zoomFactor, s);
  }

  lemma PositiveQuotient(x: real, y: real)
    requires x > 0.0 && y > 0.0
    ensures x / y > 0.0
  {
  }

  /** A left click at the middle of the screen followed by a right click
      there restores the rectangle. */
  lemma ZoomInOutAtMiddle(r: Rect, screenX: int, screenY: int)
    requires screenX != 0 && screenY != 0
    ensures var mx, my := screenX as real / 2.0, screenY as real / 2.0;
      ZoomedRect(ZoomedRect(r, 5.0, mx, my, screenX, screenY, 2), 1.0 / 5.0, mx, my, screenX, screenY, 2) == r
  {
    var mx, my := screenX as real / 2.0, screenY as real / 2.0;
    var z := ZoomedRect(r, 5.0, mx, my, screenX, screenY, 2);
    HalfwayIsMidpoint(r.minRe, r.maxRe, screenX);
    HalfwayIsMidpoint(r.minIm, r.maxIm, screenY);
    HalfwayIsMidpoint(z.minRe, z.maxRe, screenX);
    HalfwayIsMidpoint(z.minIm, z.maxIm, screenY);
  }

  /** The rectangle handle_key_press_event sets: an arrow key shifts one
      axis by 30% of its extent; anything else leaves the rectangle alone. */
  function PannedRect(r: Rect, ev: Event): (p: Rect)
    ensures p.maxRe - p.minRe == r.maxRe - r.minRe && p.maxIm - p.minIm == r.maxIm - r.minIm
    ensures ev.KeyPressed? && ev.code in {Left, Right} ==> p.minIm == r.minIm && p.maxIm == r.maxIm
    ensures ev.KeyPressed? && ev.code in {Up, Down} ==> p.minRe == r.minRe && p.maxRe == r.maxRe
    ensures ev == KeyPressed(Left) ==> p.minRe + 0.3 * (r.maxRe - r.minRe) == r.minRe
    ensures ev == KeyPressed(Right) ==> p.minRe - 0.3 * (r.maxRe - r.minRe) == r.minRe
    ensures ev == KeyPressed(Up) ==> p.minIm + 0.3 * (r.maxIm - r.minIm) == r.minIm
    ensures ev == KeyPressed(Down) ==> p.minIm - 0.3 * (r.maxIm - r.minIm) == r.minIm
    ensures ev.OtherEvent? || ev.code == OtherKey ==> p == r
  {
    match ev
    case OtherEvent => r
    case KeyPressed(code) =>
      var width := (r.maxRe - r.minRe) * 0.3;
      var height := (r.maxIm - r.minIm) * 0.3;
      match code
      case Left => Rect(r.minRe - width, r.maxRe - width, r.minIm, r.maxIm)
      case Right => Rect(r.minRe + width, r.maxRe + width, r.minIm, r.maxIm)
      case Up => Rect(r.minRe, r.maxRe, r.minIm - height, r.maxIm - height)
      case Down => Rect(r.minRe, r.maxRe, r.minIm + height, r.maxIm + height)
      case OtherKey => r
  }

  /** Panning keeps both intervals non-empty. */
  lemma PanKeepsOrdered(r: Rect, ev: Event)
    requires Ordered(r)
    ensures Ordered(PannedRect(r, ev))
  {
  }

  /** Left and Right undo each other, and so do Up and Down. */
  lemma {:induction false} PanInverse(r: Rect)
    ensures PannedRect(PannedRect(r, KeyPressed(Left)), KeyPressed(Right)) == r
    ensures PannedRect(PannedRect(r, KeyPressed(Right)), KeyPressed(Left)) == r
    ensures PannedRect(PannedRect(r, KeyPressed(Up)), KeyPressed(Down)) == r
    ensures PannedRect(PannedRect(r, KeyPressed(Down)), KeyPressed(Up)) == r
  {
  }

  /** The bound adjust_max_iterations sets: the old bound times (delta > 0)
      or divided by (otherwise) the scale factor, truncated, and raised to
      1 if it fell below. */
  function ScaledIterations(n: int, delta: int, scaleFactor: real): (m: int)
    requires delta <= 0 ==> scaleFactor != 0.0
    ensures m >= 1
  {
    var scaled := if delta > 0 then Trunc(n as real * scaleFactor) else Trunc(n as real / scaleFactor);
    var minIterations := 1;
    if scaled < minIterations then minIterations else scaled
  }

  /** With scale factor 2: an increase doubles a positive bound, a decrease
      halves it (rounding down) but never goes below 1. */
  lemma ScaleByTwo(n: int, delta: int)
    requires n >= 1
    ensures delta > 0 ==> ScaledIterations(n, delta, 2.0) == 2 * n
    ensures delta <= 0 ==> ScaledIterations(n, delta, 2.0) == if n == 1 then 1 else n / 2
  {
    assert n as real * 2.0 == (2 * n) as real;
    var h := n / 2;
    assert n as real / 2.0 == h as real + (n % 2) as real / 2.0;
  }

  /** The default bound 128 becomes 256 after an increase; 1 stays 1 after
      a decrease. */
  lemma ScaleExamples()
    ensures ScaledIterations(128, 1, 2.0) == 256
    ensures ScaledIterations(1, -1, 2.0) == 1
    ensures ScaledIterations(1, 0, 2.0) == 1
  {
    ScaleByTwo(128, 1);
    ScaleByTwo(1, -1);
    ScaleByTwo(1, 0);
  }

  /** With scale factor 2 a decrease undoes an increase, and a decrease
      lowers every bound above 1. */
  lemma ScaleUpThenDown(n: int)
    requires n >= 1
    ensures ScaledIterations(ScaledIterations(n, 1, 2.0), -1, 2.0) == n
    ensures n > 1 ==> ScaledIterations(n, -1, 2.0) < n
  {
    ScaleByTwo(n, 1);
    ScaleByTwo(2 * n, -1);
    ScaleByTwo(n, -1);
  }

  class Window {
    /** The screen size in pixels (m_screen). */
    const screenX: int
    const screenY: int
    /** m_scaleFactor: halves the new extent on either side of the centre,
        and scales the iteration bound. */
    const scaleFactor: int := 2
    /** m_zoomFactor: the factor of one click. */
    const zoomFactor: real := 5.0

    /** The default screen is 1920 x 1080, the size of the image. */
    constructor (width: int := 1920, height: int := 1080)
      ensures screenX == width && screenY == height
    {
      screenX, screenY := width, height;
    }

    /** The zoomAtMousePosition closure of handle_mouse_event. */
    method ZoomAtMousePosition(factor: real, mouseX: real, mouseY: real, vp: Viewport)
      requires factor != 0.0 && screenX != 0 && screenY != 0
      modifies vp
      ensures vp.Bounds() == ZoomedRect(old(vp.Bounds()), factor, mouseX, mouseY, screenX, screenY, scaleFactor)
      ensures vp.maxIterations == old(vp.maxIterations) && vp.zoom == old(vp.zoom)
    {
      var minReal, maxReal := vp.minRe, vp.maxRe;
      var minImaginary, maxImaginary := vp.minIm, vp.maxIm;

      var centerX := PlaneCoord(minReal, maxReal, mouseX, screenX);
      var centerY := PlaneCoord(minImaginary, maxImaginary, mouseY, screenY);

      var newWidth := (maxReal - minReal) / factor;
      var newHeight := (maxImaginary - minImaginary) / factor;
      vp.SetMaxRe(centerX + newWidth / scaleFactor as real);
      vp.SetMinRe(centerX - newWidth / scaleFactor as real);
      vp.SetMaxIm(centerY + newHeight / scaleFactor as real);
      vp.SetMinIm(centerY - newHeight / scaleFactor as real);
    }

    /** handle_mouse_event: a left click zooms in by zoomFactor around the
        clicked point, a right click zooms out by it; other buttons do
        nothing. */
    method Zoom(ev: MouseButtonEvent, vp: Viewport)
      requires screenX != 0 && screenY != 0
      modifies vp
      ensures ev.button == LeftButton ==>
        && vp.Bounds() == ZoomedRect(old(vp.Bounds()), zoomFactor, ev.x as real, ev.y as real, screenX, screenY, scaleFactor)
        && vp.zoom == old(vp.zoom) * zoomFactor
      ensures ev.button == RightButton ==>
        && vp.Bounds() == ZoomedRect(old(vp.Bounds()), 1.0 / zoomFactor, ev.x as real, ev.y as real, screenX, screenY, scaleFactor)
        && vp.zoom == old(vp.zoom) / zoomFactor
      ensures ev.button !in {LeftButton, RightButton} ==> vp.Bounds() == old(vp.Bounds()) && vp.zoom == old(vp.zoom)
      ensures vp.maxIterations == old(vp.maxIterations)
      ensures old(vp.Valid()) ==> vp.Valid()
    {
      ghost var before := vp.Bounds();
      if ev.button == LeftButton {
        ZoomAtMousePosition(zoomFactor, ev.x as real, ev.y as real, vp);
        vp.SetZoom(vp.zoom * zoomFactor);
        if Ordered(before) {
          ZoomKeepsOrdered(before, zoomFactor, ev.x as real, ev.y as real, screenX, screenY, scaleFactor);
        }
      } else if ev.button == RightButton {
        ZoomAtMousePosition(1.0 / zoomFactor, ev.x as real, ev.y as real, vp);
        vp.SetZoom(vp.zoom / zoomFactor);
        if Ordered(before) {
          ZoomKeepsOrdered(before, 1.0 / zoomFactor, ev.x as real, ev.y as real, screenX, screenY, scaleFactor);
        }
      }
    }

    /** adjust_max_iterations: scales the bound up for a positive wheel
        delta, down otherwise, and clamps it to at least 1. */
    static method AdjustIterations(vp: Viewport, delta: int, scaleFactor: real)
      requires delta <= 0 ==> scaleFactor != 0.0
      modifies vp
      ensures vp.maxIterations == ScaledIterations(old(vp.maxIterations), delta, scaleFactor)
      ensures vp.Bounds() == old(vp.Bounds()) && vp.zoom == old(vp.zoom)
      ensures old(vp.Valid()) ==> vp.Valid()
    {
      if delta > 0 {
        vp.SetMaxIterations(Trunc(vp.maxIterations as real * scaleFactor));
      } else {
        vp.SetMaxIterations(Trunc(vp.maxIterations as real / scaleFactor));
      }

      var minIterations := 1;
      if vp.maxIterations < minIterations {
        vp.SetMaxIterations(minIterations);
      }
    }

    /** handle_key_press_event: an arrow key pans the view by 30% of the
        extent on its axis; other keys and other events do nothing. */
    static method Pan(ev: Event, vp: Viewport)
      modifies vp
      ensures vp.Bounds() == PannedRect(old(vp.Bounds()), ev)
      ensures vp.maxIterations == old(vp.maxIterations) && vp.zoom == old(vp.zoom)
      ensures old(vp.Valid()) ==> vp.Valid()
    {
      if !ev.KeyPressed? {
        return;
      }

      var maxRe, minRe := vp.maxRe, vp.minRe;
      var maxIm, minIm := vp.maxIm, vp.minIm;

      var width := (maxRe - minRe) * 0.3;
      var height := (maxIm - minIm) * 0.3;

      if ev.code == Left {
        vp.SetMinRe(minRe - width);
        vp.SetMaxRe(maxRe - width);
      } else if ev.code == Right {
        vp.SetMinRe(minRe + width);
        vp.SetMaxRe(maxRe + width);
      } else if ev.code == Up {
        vp.SetMinIm(minIm - height);
        vp.SetMaxIm(maxIm - height);
      } else if ev.code == Down {
        vp.SetMinIm(minIm + height);
        vp.SetMaxIm(maxIm + height);
      }
    }
  }
}
