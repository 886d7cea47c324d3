/** The escape-time kernel and the pixel-to-plane map of
    Mandelbrot::mandy (src/Mandelbrot.cpp). `long double` is modelled by
    `real`: rounding is not modelled. */
module Escape {

  import Palette

  datatype Complex = Complex(re: real, im: real)

  const Zero := Complex(0.0, 0.0)

  /** Complex product and sum, and the conjugate: the textbook operations
      the per-component update stands for. */
  function Mul(a: Complex, b: Complex): Complex {
    Complex(a.re * b.re - a.im * b.im, a.re * b.im + a.im * b.re)
  }

  function Add(a: Complex, b: Complex): Complex {
    Complex(a.re + b.re, a.im + b.im)
  }

  function Conj(a: Complex): Complex {
    Complex(a.re, -a.im)
  }

  /** One update z := z * z + c, written per component as the loop body does. */
  function Step(z: Complex, c: Complex): Complex {
    var tr := z.re * z.re - z.im * z.im + c.re;
    Complex(tr, 2.0 * z.re * z.im + c.im)
  }

  /** The per-component update is the complex square of z plus c. */
  lemma StepIsSquarePlusC(z: Complex, c: Complex)
    ensures Step(z, c) == Add(Mul(z, z), c)
  {
  }

  /** The escape test |z|^2 > 2 * 2, where |z|^2 is z times its conjugate.
      It needs one component with square above 2. */
  predicate Escaped(z: Complex): (e: bool)
    ensures e <==> Mul(z, Conj(z)).re > 4.0
    ensures e ==> z.re * z.re > 2.0 || z.im * z.im > 2.0
  {
    z.re * z.re + z.im * z.im > 2.0 * 2.0
  }

  /** z after k updates, starting from 0. */
  function Orbit(c: Complex, k: nat): Complex {
    if k == 0 then Zero else Step(Orbit(c, k - 1), c)
  }

  /** What the count of the loop means for a bound n >= 0: k updates went
      by without escaping, and unless k reached the bound, update k + 1
      escaped. */
  predicate IsEscapeCount(c: Complex, n: int, k: int) {
    && 0 <= k <= n
    && (forall j: nat :: 1 <= j <= k ==> !Escaped(Orbit(c, j)))
    && (k < n ==> Escaped(Orbit(c, k + 1)))
  }

  /** Reference definition of the count, by recursion on the bound: raising
      the bound from n - 1 to n changes the count only when no earlier
      update escaped, and then by whether update n does. */
  function EscapeTime(c: Complex, n: int): (k: int)
    ensures n <= 0 ==> k == 0
    ensures n >= 0 ==> 0 <= k <= n
    decreases n
  {
    if n <= 0 then 0
    else
      var k := EscapeTime(c, n - 1);
      if k < n - 1 then k
      else if Escaped(Orbit(c, n)) then n - 1
      else n
  }

  /** The reference count meets the description of the loop's count. */
  lemma {:induction false} EscapeTimeIsEscapeCount(c: Complex, n: int)
    requires n >= 0
    ensures IsEscapeCount(c, n, EscapeTime(c, n))
    decreases n
  {
    if n > 0 {
      EscapeTimeIsEscapeCount(c, n - 1);
    }
  }

  /** That description determines the count. */
  lemma EscapeCountUnique(c: Complex, n: int, k1: int, k2: int)
    requires IsEscapeCount(c, n, k1) && IsEscapeCount(c, n, k2)
    ensures k1 == k2
  {
    if k1 < n {
      assert Escaped(Orbit(c, k1 + 1));
    }
    if k2 < n {
      assert Escaped(Orbit(c, k2 + 1));
    }
  }

  /** The inner loop of mandy for the point c and the bound maxIterations:
      iterate from z = 0, stop after an update takes |z|^2 above 4 or when
      the bound is reached. */
  method EscapeCount(c: Complex, maxIterations: int) returns (iters: int)
    ensures maxIterations <= 0 ==> iters == 0
    ensures maxIterations >= 0 ==> IsEscapeCount(c, maxIterations, iters)
    ensures maxIterations >= 0 ==>
      (iters == maxIterations <==> forall j: nat :: 1 <= j <= maxIterations ==> !Escaped(Orbit(c, j)))
    ensures iters == EscapeTime(c, maxIterations)
  {
    var z := Zero;
    iters := 0;
    while iters < maxIterations
      invariant 0 <= iters && (iters <= maxIterations || iters == 0)
      invariant z == Orbit(c, iters)
      invariant forall j: nat :: 1 <= j <= iters ==> !Escaped(Orbit(c, j))
    {
      z := Step(z, c);
      if Escaped(z) {
        assert Escaped(Orbit(c, iters + 1));
        break;
      }
      iters := iters + 1;
    }
    if maxIterations >= 0 {
      EscapeTimeIsEscapeCount(c, maxIterations);
      EscapeCountUnique(c, maxIterations, iters, EscapeTime(c, maxIterations));
    }
  }

  /** The orbit of 0 stays at 0. */
  lemma {:induction false} OriginOrbit(k: nat)
    ensures Orbit(Zero, k) == Zero
  {
    if k > 0 {
      OriginOrbit(k - 1);
    }
  }

  /** 0 never escapes: its count is the bound. */
  lemma OriginNeverEscapes(n: int)
    requires n >= 0
    ensures EscapeTime(Zero, n) == n
  {
    forall j: nat | 1 <= j <= n
      ensures !Escaped(Orbit(Zero, j))
    {
      OriginOrbit(j);
    }
    EscapeTimeIsEscapeCount(Zero, n);
  }

  /** A point with |c|^2 > 4 escapes on the first update: its count is 0. */
  lemma FarPointEscapesAtOnce(c: Complex, n: int)
    requires Escaped(c)
    ensures EscapeTime(c, n) == 0
  {
    assert Orbit(c, 1) == c;
    if n > 0 {
      EscapeTimeIsEscapeCount(c, n);
    }
  }

  /** The linear map of mandy from a pixel position p on an axis of `size`
      pixels to the plane interval [lo, hi]. */
  function PlaneCoord(lo: real, hi: real, p: real, size: int): (v: real)
    requires size != 0
    ensures p == 0.0 ==> v == lo
    ensures p == size as real ==> v == hi
  {
    lo + (hi - lo) * p / size as real
  }

  /** Each step of one pixel along an axis moves the plane coordinate by
      the extent divided by the number of pixels. */
  lemma PlaneCoordStep(lo: real, hi: real, p: real, size: int)
    requires size != 0
    ensures PlaneCoord(lo, hi, p + 1.0, size) - PlaneCoord(lo, hi, p, size) == (hi - lo) / size as real
  {
    assert (hi - lo) * (p + 1.0) == (hi - lo) * p + (hi - lo);
  }

  /** Pixels from 0 to size map into [lo, hi] when lo <= hi, in order. */
  lemma PlaneCoordMonotone(lo: real, hi: real, p: real, q: real, size: int)
    requires size > 0 && lo <= hi && 0.0 <= p <= q <= size as real
    ensures lo <= PlaneCoord(lo, hi, p, size) <= PlaneCoord(lo, hi, q, size) <= hi
  {
    var s := size as real;
    ScaleMonotone(hi - lo, 0.0, p);
    ScaleMonotone(hi - lo, p, q);
    ScaleMonotone(hi - lo, q, s);
    DivMonotone(0.0 * (hi - lo), (hi - lo) * p, s);
    DivMonotone((hi - lo) * p, (hi - lo) * q, s);
    DivMonotone((hi - lo) * q, (hi - lo) * s, s);
    assert (hi - lo) * s / s == hi - lo;
  }

  lemma ScaleMonotone(w: real, p: real, q: real)
    requires w >= 0.0 && p <= q
    ensures w * p <= w * q
  {
    Palette.NonNegMul(w, q - p);
    assert w * q - w * p == w * (q - p);
  }

  lemma DivMonotone(x: real, y: real, s: real)
    requires s > 0.0 && x <= y
    ensures x / s <= y / s
  {
    assert y / s - x / s == (y - x) / s;
  }
}
