# Mandelbrot explorer: a verified model of its fractal engine

This project models the computational core of a small SFML program that draws the
Mandelbrot set and lets the user explore it with the mouse, the arrow keys and the
wheel. Three parts are modelled.

- **Escape-time kernel and frame pass** (`Mandelbrot::mandy`). Each pixel of the
  screen is mapped linearly into the current rectangle of the complex plane. There
  `z := z*z + c` is iterated from `z = 0` until `|z|^2 > 4` or until the iteration
  bound is reached. The count colours the pixel.
- **Colour mapping** (`set_color`, `interpolate_color`, `linear_interp`). A count equal
  to the bound is remapped to 0. The count is then normalised to `mu` in `[0, 1)`, and
  the colour is blended between two neighbouring anchors of a fixed ten-colour palette.
  Each channel of the blend is truncated to 8 bits.
- **Viewport state machine**. The `Mandelbrot` object holds the rectangle, the
  iteration bound and a zoom accumulator. Three `Window` handlers change them:
  - a click zooms in (left) or out (right), recentring on the clicked point;
  - an arrow key pans by 30% of the extent;
  - the wheel doubles or halves the iteration bound, never letting it fall below 1.

`long double` and `double` are modelled by Dafny `real`. A `static_cast` of a
non-negative value to an unsigned type is `Floor`. The conversion of a `double` to an
`int` parameter is truncation toward zero (`Controls.Trunc`).

Files and modules:

- `palette.dfy` (module `Palette`): colours, the palette, `linear_interp`,
  `interpolate_color` and the `mu` of `set_color`.
- `escape.dfy` (module `Escape`): the complex update and the orbit of 0. It holds the
  reference definition `EscapeTime` of the escape count, the loop `EscapeCount` proved
  against it, and the pixel-to-plane map.
- `fractal.dfy` (module `Fractal`): class `Viewport`, i.e. the fields of the
  `Mandelbrot` object, its image as an `array2`, its setters, `set_color` and `mandy`.
- `controls.dfy` (module `Controls`): class `Window` with its constants and the three
  handlers. Each handler writes the viewport through its setters, as the source does.
  Their effect on the rectangle is specified by the pure functions `ZoomedRect`,
  `PannedRect` and `ScaledIterations`, and the algebraic properties are lemmas about
  these functions.

Behaviour of the code worth noting:

- **Channel blend:** `static_cast<sf::Uint8>` truncates the blend of each channel.
- **Palette position:** `interpolate_color` does not clamp `t`; the model takes
  `0 <= t <= 1` as a precondition. Only the upper anchor index is clamped, and at
  `t = 1` both indices are the last one.
- **Zoom:** it recentres the rectangle on the clicked point, so that point moves to the
  middle of the screen (`ZoomMovesClickToMiddle`). A point away from the middle
  therefore does not stay under the mouse (`ZoomDoesNotFixClickedPoint`).
- **Palette ends:** because `mu < 1`, the last anchor (white) is never drawn
  (`NeverWhite`).
- **Black pixels:** points in the set are drawn black, and so are points that escape on
  the first update, since both get `mu = 0` (`InSetIsBlack`, `FarPointIsBlack`).

## Model

| member | source | states |
|---|---|---|
| Palette.Anchors | src/Mandelbrot.cpp:34-45 | the palette has ten anchors, from black to white |
| Palette.Blend | src/Mandelbrot.cpp:172-174 | one truncated channel blend lies between the two channels, stays below the second when ratio < 1 and it is the larger, and gives the first channel at ratio 0 and the second at ratio 1 |
| Palette.BlendFloor | src/Mandelbrot.cpp:172-174 | the truncation of (1 - ratio) * a + ratio * b lies between a and b, and below b when ratio < 1 and a < b |
| Palette.Part | src/Mandelbrot.cpp:172-174 | the share ratio * d of a signed channel distance lies between 0 and d, and short of d when ratio < 1 and d > 0 |
| Palette.LinearInterp | src/Mandelbrot.cpp:166-178 | every channel of the result lies between those of color1 and color2, and short of color2 when ratio < 1 in each channel where color2's is the larger; ratio 0 gives color1 and ratio 1 gives color2 |
| Palette.ScaledBounds | src/Mandelbrot.cpp:15-18 | t scaled by the largest palette index lies in [0, n - 1], and below n - 1 when t < 1 and n > 1 |
| Palette.CastDown | src/Mandelbrot.cpp:21 | the cast of a non-negative value is the largest integer not above it |
| Palette.LowerIndex | src/Mandelbrot.cpp:15-21 | the lower index is a valid palette index, it is the integer part of t * (n - 1), and, for a palette of more than one anchor, it is the last index exactly when t = 1 |
| Palette.UpperIndex | src/Mandelbrot.cpp:25 | the clamped upper index is a valid palette index: the lower index plus one, or the last index when the lower index already is |
| Palette.Interp | src/Mandelbrot.cpp:12-29 | the colour is a partway blend of the anchors at the lower and upper index; t = 0 gives the first anchor and t = 1 the last |
| Palette.Mu | src/Mandelbrot.cpp:47-54 | mu lies in [0, 1); it is 0 exactly when the count is 0 or the bound; otherwise mu * bound equals the count |
| Palette.PixelColor | src/Mandelbrot.cpp:53-57 | the colour for a count is a partway blend of two consecutive anchors, and the lower one is never the last |
| Palette.InSetIsBlack | src/Mandelbrot.cpp:31-57 | a count of 0 or of the bound is drawn in the first anchor, black |
| Palette.NeverWhite | src/Mandelbrot.cpp:31-57 | no count in [0, bound] is drawn white |
| Escape.StepIsSquarePlusC | src/Mandelbrot.cpp:92-94 | the per-component update of `Step` (through the temporary `tr`) equals the complex product z * z plus c |
| Escape.Escaped | src/Mandelbrot.cpp:97 | the escape test holds exactly when z times its conjugate exceeds 4, and then one component has a square above 2 |
| Escape.EscapeTime | src/Mandelbrot.cpp:89-100 | the reference count is 0 for a bound <= 0 and lies in [0, bound] otherwise |
| Escape.EscapeTimeIsEscapeCount | src/Mandelbrot.cpp:89-100 | the reference count k satisfies: no update among the first k escaped, and update k + 1 escaped unless k is the bound |
| Escape.EscapeCountUnique | src/Mandelbrot.cpp:89-100 | at most one count meets that description |
| Escape.EscapeCount | src/Mandelbrot.cpp:84-100 | the loop's count is 0 for a bound <= 0; it meets the description above; it equals the bound exactly when no update up to the bound escapes; it equals the reference count |
| Escape.OriginOrbit | src/Mandelbrot.cpp:84-95 | the orbit of c = 0 stays at 0 |
| Escape.OriginNeverEscapes | src/Mandelbrot.cpp:84-100 | the count of c = 0 is the bound |
| Escape.FarPointEscapesAtOnce | src/Mandelbrot.cpp:89-99 | a point with abs(c)^2 > 4 has count 0 |
| Escape.PlaneCoord | src/Mandelbrot.cpp:80-81 | pixel 0 maps to the low end of the interval and pixel `size` to the high end |
| Escape.PlaneCoordStep | src/Mandelbrot.cpp:80-81 | one pixel step moves the plane coordinate by exactly extent / size |
| Escape.PlaneCoordMonotone | src/Mandelbrot.cpp:80-81 | pixels 0 to size map into the interval, in order |
| Fractal.Viewport.constructor | src/Mandelbrot.cpp:120-124 | the default state: a 1920 x 1080 black image, rectangle [-2.5, 1] x [-1, 1], bound 128, zoom 1, and the viewport invariant |
| Fractal.Viewport.SetMinRe | src/Mandelbrot.cpp:115-117 | sets the low real bound and nothing else |
| Fractal.Viewport.SetMaxRe | src/Mandelbrot.cpp:126-128 | sets the high real bound and nothing else |
| Fractal.Viewport.SetMinIm | src/Mandelbrot.cpp:130-132 | sets the low imaginary bound and nothing else |
| Fractal.Viewport.SetMaxIm | src/Mandelbrot.cpp:134-136 | sets the high imaginary bound and nothing else |
| Fractal.Viewport.SetMaxIterations | src/Mandelbrot.cpp:150-152 | sets the iteration bound and nothing else |
| Fractal.Viewport.SetZoom | src/Mandelbrot.cpp:185-187 | sets the zoom accumulator and nothing else |
| Fractal.Viewport.PixelPoint | src/Mandelbrot.cpp:80-81 | pixel column 0 maps onto minRe and pixel row 0 onto minIm |
| Fractal.Viewport.SetColor | src/Mandelbrot.cpp:31-61 | pixel (x, y) gets the palette colour of the count, and no other pixel changes |
| Fractal.Viewport.Render | src/Mandelbrot.cpp:68-105 | every pixel of the screen gets the colour of its point's escape count; pixels outside the screen and every field stay as they were |
| Fractal.RenderReady | src/Mandelbrot.cpp:120-121 | the viewport invariant gives the bound of at least 1 that Render and SetColor require |
| Fractal.OriginIsBlack | src/Mandelbrot.cpp:84-102 | a pixel that maps onto 0 is drawn black |
| Fractal.FarPointIsBlack | src/Mandelbrot.cpp:89-102 | a pixel whose point lies outside the radius-2 disc is drawn black |
| Controls.Trunc | src/Window.cpp:72-74 | the conversion to int rounds toward zero: it never moves away from zero and stays within 1 of the value |
| Controls.ZoomedRect | src/Window.cpp:49-57 | the new rectangle is centred on the plane point under the mouse, and each extent is twice the old extent divided by the zoom factor, divided by the scale factor |
| Controls.ZoomMovesClickToMiddle | src/Window.cpp:49-57 | after the zoom, the middle of the screen shows the point that was clicked |
| Controls.ZoomDoesNotFixClickedPoint | src/Window.cpp:49-57 | clicking pixel (0, 0) of the default view: that pixel showed -2.5 on the real axis before and shows -2.85 after |
| Controls.HalfwayIsMidpoint | src/Window.cpp:49-50 | the middle pixel maps to the middle of the interval |
| Controls.ZoomDividesExtents | src/Window.cpp:52-57 | with scale factor 2, both extents are divided by the zoom factor |
| Controls.ZoomKeepsOrdered | src/Window.cpp:52-57 | a positive zoom factor and scale factor keep both intervals non-empty |
| Controls.ZoomInOutAtMiddle | src/Window.cpp:43-67 | a left click followed by a right click at the middle of the screen restores the rectangle |
| Controls.PannedRect | src/Window.cpp:83-112 | a pan keeps both extents; an arrow shifts only its own axis, by 30% of that axis's extent in its direction; any other key or event changes nothing |
| Controls.PanKeepsOrdered | src/Window.cpp:96-111 | panning keeps both intervals non-empty |
| Controls.PanInverse | src/Window.cpp:96-111 | Left and Right undo each other, and so do Up and Down, in either order |
| Controls.ScaledIterations | src/Window.cpp:70-81 | the adjusted bound is always at least 1 |
| Controls.ScaleByTwo | src/Window.cpp:70-81 | with scale factor 2, an increase doubles a positive bound; a decrease halves it, rounding down, except that 1 stays 1 |
| Controls.ScaleExamples | src/Window.cpp:70-81 | 128 becomes 256 on an increase; 1 stays 1 on a decrease, including delta = 0 |
| Controls.ScaleUpThenDown | src/Window.cpp:70-81 | a decrease undoes an increase, and a decrease lowers every bound above 1 |
| Controls.Window.constructor | src/Window.cpp:18-27 | the window keeps the given screen size, 1920 x 1080 by default; the scale factor 2 and the zoom factor 5 are constants of the class |
| Controls.Window.ZoomAtMousePosition | src/Window.cpp:43-58 | the rectangle becomes the zoomed rectangle of the old one; the bound and zoom stay unchanged |
| Controls.Window.Zoom | src/Window.cpp:39-68 | a left click zooms in by the zoom factor and multiplies zoom by it; a right click zooms out by it and divides zoom; other buttons change nothing; the bound is kept, and so is the viewport invariant |
| Controls.Window.AdjustIterations | src/Window.cpp:70-81 | the bound becomes the scaled, clamped old bound; the rectangle and zoom stay unchanged, and the viewport invariant is kept |
| Controls.Window.Pan | src/Window.cpp:83-112 | the rectangle becomes the panned old one; the bound and zoom stay unchanged, and the viewport invariant is kept |

## Left out

- SFML window, event pump, font, text, texture, sprite and image copying
  (`init_window`, `poll_events`, `render`, `update_text`, `get_image` and the like):
  foreign library I/O with no logic. The image is an `array2` of RGB triples.
- The dispatch in `poll_events`, including the truncation of the float wheel delta to
  the `int` parameter of `adjust_max_iterations`: the model's handlers take the event
  values directly.
- `init_variables` of both classes: allocation of library objects. The `Viewport`
  constructor allocates the image itself.
- The getters: plain field reads. The model reads the fields.
- `src/main.cpp` is not part of this model: it only locates the working directory and
  runs the frame loop.
- The OpenMP `parallel for` of `mandy`: the pixel loops are modelled sequentially.
- Floating-point rounding and precision loss: `real` is exact. So the zoom and pan
  round trips hold exactly here.
- The alpha channel of `sf::Color`: always opaque.
- Palette.Interp: requires `0 <= t <= 1`. The code would index out of bounds for
  `t > 1`, and `set_color` only passes `mu` in `[0, 1)`.
- Controls.ScaledIterations: does not model `int` overflow of `maxIterations * scaleFactor`;
  integers are unbounded.
- Fractal.Viewport.Render: requires the screen to fit in the image, since `setPixel`
  on a pixel outside the image is not modelled. It also requires a bound of at least 1,
  because `set_color` divides by the bound.
- Controls.Window.Zoom: requires a non-zero screen width and height, as do
  `Controls.Window.ZoomAtMousePosition` and `Controls.ZoomedRect`. The constructor
  accepts any size and `Window` keeps no invariant about it; with a zero size the code
  divides by zero in floating point, which the model does not capture.
- Fractal.Viewport.SetColor: requires a bound of at least 1 and a count in
  `[0, bound]`, which is what `mandy` passes.
