/** Colour mapping of src/Mandelbrot.cpp: the ten-anchor palette, the
    per-channel blend (linear_interp), the anchor lookup
    (interpolate_color) and the iteration-count normalisation of set_color. */
module Palette {

  /** An 8-bit colour channel (sf::Uint8). */
  type Byte = x: int | 0 <= x < 256

  /** An RGB colour; the alpha channel of sf::Color is always opaque here. */
  datatype Color = Color(r: Byte, g: Byte, b: Byte)

  const Black := Color(0, 0, 0)
  const White := Color(255, 255, 255)

  /** The fixed palette of set_color, from black through red, orange,
      yellow, green, blue, indigo, violet and magenta to white. */
  function Anchors(): (colors: seq<Color>)
    ensures |colors| == 10
    ensures colors[0] == Black && colors[|colors| - 1] == White
  {
    [
    Color(0, 0, 0),
    Color(255, 0, 0),
    Color(255, 127, 0),
    Color(255, 255, 0),
    Color(0, 255, 0),
    Color(0, 0, 255),
    Color(75, 0, 130),
    Color(148, 0, 211),
    Color(255, 0, 255),
    Color(255, 255, 255)
    ]
  }

  function Min(a: int, b: int): int { if a <= b then a else b }
  function Max(a: int, b: int): int { if a <= b then b else a }

  /** v lies between a and b (in either order). */
  predicate Between(a: int, b: int, v: int) {
    Min(a, b) <= v <= Max(a, b)
  }

  /** v is a blend of a towards b that stops short of b: it reaches b only
      when a and b coincide or b lies below a. */
  predicate Partway(a: int, b: int, v: int) {
    Between(a, b, v) && (a < b ==> v < b)
  }

  predicate ColorBetween(c1: Color, c2: Color, c: Color) {
    Between(c1.r, c2.r, c.r) && Between(c1.g, c2.g, c.g) && Between(c1.b, c2.b, c.b)
  }

  predicate ColorPartway(c1: Color, c2: Color, c: Color) {
    Partway(c1.r, c2.r, c.r) && Partway(c1.g, c2.g, c.g) && Partway(c1.b, c2.b, c.b)
  }

  /** One channel of linear_interp: the truncating cast of the blend
      (1 - ratio) * a + ratio * b to sf::Uint8. The blend is never negative,
      so truncation is Floor. */
  function Blend(a: Byte, b: Byte, ratio: real): (v: Byte)
    requires 0.0 <= ratio <= 1.0
    ensures Between(a, b, v)
    ensures ratio < 1.0 ==> Partway(a, b, v)
    ensures ratio == 0.0 ==> v == a
    ensures ratio == 1.0 ==> v == b
  {
    BlendFloor(a, b, ratio);
    ((1.0 - ratio) * a as real + ratio * b as real).Floor
  }

  lemma BlendFloor(a: Byte, b: Byte, ratio: real)
    requires 0.0 <= ratio <= 1.0
    ensures var v := ((1.0 - ratio) * a as real + ratio * b as real).Floor;
      Between(a, b, v) && (ratio < 1.0 && a < b ==> v < b)
  {
    var x := (1.0 - ratio) * a as real + ratio * b as real;
    assert x == a as real + Part(ratio, b - a);
    assert x.Floor as real <= x < x.Floor as real + 1.0;
  }

  /** t scaled by the largest index of an n-anchor palette stays within
      [0, n - 1] and reaches n - 1 only at t = 1. */
  lemma ScaledBounds(t: real, n: nat)
    requires n >= 1 && 0.0 <= t <= 1.0
    ensures 0.0 <= t * (n - 1) as real <= (n - 1) as real
    ensures n > 1 && t < 1.0 ==> t * (n - 1) as real < (n - 1) as real
  {
    assert t * (n - 1) as real == Part(t, n - 1);
  }

  /** The share r * d of a signed distance d for r in [0, 1]: it lies between
      0 and d, and short of d when r < 1 and d > 0. */
  function Part(r: real, d: int): (p: real)
    requires 0.0 <= r <= 1.0
    ensures d >= 0 ==> 0.0 <= p <= d as real
    ensures r < 1.0 && d > 0 ==> p < d as real
    ensures d <= 0 ==> d as real <= p <= 0.0
  {
    NonNegMul(r, d as real);
    NonNegMul(1.0 - r, d as real);
    NonNegMul(r, -d as real);
    NonNegMul(1.0 - r, -d as real);
    if r < 1.0 && d > 0 then PosMul(1.0 - r, d as real); r * d as real
    else r * d as real
  }

  /** The product of two non-negative reals is non-negative; Escape uses it
      too, for the monotonicity of the pixel-to-plane map. */
  lemma NonNegMul(x: real, y: real)
    requires x >= 0.0
    ensures y >= 0.0 ==> x * y >= 0.0
  {}

  lemma PosMul(x: real, y: real)
    requires x > 0.0 && y > 0.0
    ensures x * y > 0.0
  {}

  /** linear_interp: blends each channel of color1 towards color2. */
  function LinearInterp(color1: Color, color2: Color, ratio: real): (c: Color)
    requires 0.0 <= ratio <= 1.0
    ensures ColorBetween(color1, color2, c)
    ensures ratio < 1.0 ==> ColorPartway(color1, color2, c)
    ensures ratio == 0.0 ==> c == color1
    ensures ratio == 1.0 ==> c == color2
  {
    Color(Blend(color1.r, color2.r, ratio),
          Blend(color1.g, color2.g, ratio),
          Blend(color1.b, color2.b, ratio))
  }

  /** The lower anchor of interpolate_color: the truncation of t scaled by
      the largest palette index. It is the last index only at t = 1. */
  function LowerIndex(t: real, n: nat): (i: nat)
    requires n >= 1 && 0.0 <= t <= 1.0
    ensures i < n
    ensures i as real <= t * (n - 1) as real < i as real + 1.0
    ensures n > 1 ==> (i == n - 1 <==> t == 1.0)
  {
    ScaledBounds(t, n);
    CastDown(t * (n - 1) as real)
  }

  /** static_cast of a non-negative value to an unsigned integer type:
      truncation, which for such values is Floor. */
  function CastDown(x: real): (i: nat)
    requires x >= 0.0
    ensures i as real <= x < i as real + 1.0
  {
    x.Floor
  }

  /** The upper anchor of interpolate_color: the lower index plus one,
      clamped to the palette (the lower clamp bound 0 never applies to an
      unsigned index plus one). */
  function UpperIndex(t: real, n: nat): (j: nat)
    requires n >= 1 && 0.0 <= t <= 1.0
    ensures j < n
    ensures j == LowerIndex(t, n) + 1 || j == LowerIndex(t, n) == n - 1
  {
    var lower := LowerIndex(t, n);
    if lower + 1 > n - 1 then n - 1 else lower + 1
  }

  /** interpolate_color: the colour at position t of the palette `colors`,
      blended from the anchors on either side of t * (|colors| - 1). */
  function Interp(t: real, colors: seq<Color>): (c: Color)
    requires |colors| >= 1 && 0.0 <= t <= 1.0
    ensures ColorPartway(colors[LowerIndex(t, |colors|)], colors[UpperIndex(t, |colors|)], c)
    ensures t == 0.0 ==> c == colors[0]
    ensures t == 1.0 ==> c == colors[|colors| - 1]
  {
    var scaled := t * (|colors| - 1) as real;
    var lower := LowerIndex(t, |colors|);
    var upper := UpperIndex(t, |colors|);
    LinearInterp(colors[lower], colors[upper], scaled - lower as real)
  }

  /** The normalised count mu of set_color: a count equal to the bound (a
      point taken to be in the set) is remapped to 0 first. */
  function Mu(iters: int, maxIterations: int): (mu: real)
    requires 1 <= maxIterations && 0 <= iters <= maxIterations
    ensures 0.0 <= mu < 1.0
    ensures mu == 0.0 <==> iters == 0 || iters == maxIterations
    ensures iters < maxIterations ==> mu * maxIterations as real == iters as real
  {
    var k := if iters == maxIterations then 0 else iters;
    1.0 * k as real / maxIterations as real
  }

  /** The colour set_color writes for an escape count: a blend of two
      consecutive anchors that stops short of the upper one, the lower one
      never being the last. */
  function PixelColor(iters: int, maxIterations: int): (c: Color)
    requires 1 <= maxIterations && 0 <= iters <= maxIterations
    ensures var lower := LowerIndex(Mu(iters, maxIterations), |Anchors()|);
      && lower < |Anchors()| - 1
      && ColorPartway(Anchors()[lower], Anchors()[lower + 1], c)
  {
    Interp(Mu(iters, maxIterations), Anchors())
  }

  /** A point that reached the bound is drawn in the first anchor, black;
      so is a point that escaped on the first update. */
  lemma InSetIsBlack(iters: int, maxIterations: int)
    requires 1 <= maxIterations && 0 <= iters <= maxIterations
    requires iters == 0 || iters == maxIterations
    ensures PixelColor(iters, maxIterations) == Black
  {
    assert Mu(iters, maxIterations) == 0.0;
  }

  /** Because mu stays below 1, set_color never reaches the last anchor:
      no pixel is ever drawn white. */
  lemma {:induction false} NeverWhite(iters: int, maxIterations: int)
    requires 1 <= maxIterations && 0 <= iters <= maxIterations
    ensures PixelColor(iters, maxIterations) != White
  {
    var mu := Mu(iters, maxIterations);
    var lower := LowerIndex(mu, |Anchors()|);
    var c := PixelColor(iters, maxIterations);
    assert ColorPartway(Anchors()[lower], Anchors()[lower + 1], c);
    if lower == 8 {
      assert c.g < 255;
    } else if lower == 7 {
      assert c.g == 0;
    } else if lower == 6 {
      assert c.g == 0;
    } else if lower == 5 {
      assert c.g == 0;
    } else if lower == 4 {
      assert c.r == 0;
    } else if lower == 3 {
      assert c.b == 0;
    } else if lower == 2 {
      assert c.b == 0;
    } else if lower == 1 {
      assert c.b == 0;
    } else {
      assert c.b == 0;
    }
  }
}
