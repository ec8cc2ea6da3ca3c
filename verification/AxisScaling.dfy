/** Pixels to absolute mouse axes (agent/internal/api/mcp_mouse_absolute.go): a coordinate of a screen dimension is
    scaled to 0..32767, in Go's 64-bit integers. */
module AxisScaling {

  const ABS_MAX := 32767
  const TWO63 := 0x8000_0000_0000_0000
  const TWO64 := 0x1_0000_0000_0000_0000

  type int64 = x: int | -TWO63 <= x < TWO63

  /** The product of two ints, kept to 64 bits. */
  function Wrap(x: int): (w: int64) {
    (x + TWO63) % TWO64 - TWO63
  }

  /** Go's division, toward zero. */
  function TruncDiv(a: int, n: int): int
    requires n > 0
  {
    if a >= 0 then a / n else -(-a / n)
  }

  function Clamp(v: int, lo: int, hi: int): int {
    if v < lo then lo else if v > hi then hi else v
  }

  function Scale(v: int64, dim: int64): (a: int)
    ensures 0 <= a <= ABS_MAX
  {
    if dim <= 1 then 0 else Clamp(TruncDiv(Wrap(v * ABS_MAX), dim - 1), 0, ABS_MAX)
  }

  function PixelToAbsoluteXY(x: int64, y: int64, width: int64, height: int64): (r: (int, int))
    ensures 0 <= r.0 <= ABS_MAX && 0 <= r.1 <= ABS_MAX
  {
    (Scale(x, width), Scale(y, height))
  }

  // ---------------------------------------------------------------- without overflow

  predicate Multiplies(v: int64) { -TWO63 <= v * ABS_MAX < TWO63 }

  /** The scale over all integers. */
  function Exact(v: int, dim: int): int {
    if dim <= 1 then 0 else Clamp(TruncDiv(v * ABS_MAX, dim - 1), 0, ABS_MAX)
  }

  predicate Quotient(a: int, n: int, q: int) { q * n <= a < q * n + n }

  lemma MulOrder(x: int, y: int, n: int)
    requires x <= y && n >= 0
    ensures x * n <= y * n
  {
    assert (y - x) * n >= 0;
  }

  lemma QuotientOrder(a: int, b: int, n: int, p: int, q: int)
    requires n > 0 && Quotient(a, n, p) && Quotient(b, n, q) && a <= b
    ensures p <= q
  {
    if p > q { MulOrder(q + 1, p, n); }
  }

  lemma DivIs(a: int, n: int, q: int)
    requires n > 0
    ensures Quotient(a, n, a / n)
    ensures Quotient(a, n, q) ==> a / n == q
  {
    var p := a / n;
    assert a == p * n + a % n;
    if Quotient(a, n, q) {
      QuotientOrder(a, a, n, p, q);
      QuotientOrder(a, a, n, q, p);
    }
  }

  /** A coordinate before the screen goes to 0. */
  lemma BeforeTheScreen(v: int, dim: int)
    requires v <= 0
    ensures Exact(v, dim) == 0
  {
    if dim > 1 {
      DivIs(-v * ABS_MAX, dim - 1, 0);
      DivIs(0, dim - 1, 0);
      QuotientOrder(0, -v * ABS_MAX, dim - 1, 0, -v * ABS_MAX / (dim - 1));
    }
  }

  /** One past it to the end. */
  lemma PastTheScreen(v: int, dim: int)
    requires dim > 1 && v >= dim - 1
    ensures Exact(v, dim) == ABS_MAX
  {
    var n := dim - 1;
    MulOrder(n, v, ABS_MAX);
    DivIs(v * ABS_MAX, n, 0);
    QuotientOrder(n * ABS_MAX, v * ABS_MAX, n, ABS_MAX, v * ABS_MAX / n);
  }

  /** And one on it to the share of its way, rounded down. */
  lemma OnTheScreen(v: int, dim: int)
    requires dim > 1 && 0 <= v < dim
    ensures Quotient(v * ABS_MAX, dim - 1, Exact(v, dim))
  {
    var n := dim - 1;
    DivIs(v * ABS_MAX, n, 0);
    MulOrder(v, n, ABS_MAX);
    QuotientOrder(v * ABS_MAX, n * ABS_MAX, n, v * ABS_MAX / n, ABS_MAX);
    QuotientOrder(0, v * ABS_MAX, n, 0, v * ABS_MAX / n);
  }

  lemma WrapKeeps(x: int)
    requires -TWO63 <= x < TWO63
    ensures Wrap(x) == x
  {
  }

  lemma ScaleIsExact(v: int64, dim: int64)
    requires Multiplies(v)
    ensures Scale(v, dim) == Exact(v, dim)
  {
    WrapKeeps(v * ABS_MAX);
  }

  lemma ExactMonotone(u: int, v: int, dim: int)
    requires u <= v
    ensures Exact(u, dim) <= Exact(v, dim)
  {
    if dim > 1 {
      if u <= 0 {
        BeforeTheScreen(u, dim);
      } else if v >= dim - 1 {
        PastTheScreen(v, dim);
      } else {
        OnTheScreen(u, dim);
        OnTheScreen(v, dim);
        QuotientOrder(u * ABS_MAX, v * ABS_MAX, dim - 1, Exact(u, dim), Exact(v, dim));
      }
    }
  }

  // ---------------------------------------------------------------- with overflow

  function ClampDiv(p: int, n: int): int
    requires n > 0
  {
    Clamp(TruncDiv(p, n), 0, ABS_MAX)
  }

  /** The clamped share by comparisons: 0 below one whole part, the end from all of them on, and between the quotient. */
  lemma ClampDivIs(p: int, n: int)
    requires n > 0
    ensures ClampDiv(p, n) == 0 <==> p < n
    ensures ClampDiv(p, n) == ABS_MAX <==> p >= ABS_MAX * n
    ensures n <= p < ABS_MAX * n ==> Quotient(p, n, ClampDiv(p, n))
  {
    if p < 0 {
      DivIs(-p, n, 0);
      QuotientOrder(0, -p, n, 0, -p / n);
    } else {
      DivIs(p, n, 0);
      if p < n {
      } else if p >= ABS_MAX * n {
        QuotientOrder(ABS_MAX * n, p, n, ABS_MAX, p / n);
      } else {
        QuotientOrder(n, p, n, 1, p / n);
        BelowTheEnd(p, n, p / n);
      }
    }
  }

  lemma BelowTheEnd(p: int, n: int, q: int)
    requires n > 0 && Quotient(p, n, q) && p < ABS_MAX * n
    ensures q < ABS_MAX
  {
    if q >= ABS_MAX { MulOrder(ABS_MAX, q, n); }
  }

  /** What wraps upward loses at least 2^64. */
  lemma WrapFar(p: int)
    requires p >= TWO63
    ensures p - Wrap(p) >= TWO64
  {
    var q := (p + TWO63) / TWO64;
    assert p + TWO63 == q * TWO64 + (p + TWO63) % TWO64;
    assert q >= 1;
  }

  /** The wrapped product comes out as the true one does. */
  predicate ScalesRight(v: int64, dim: int64) {
    || dim <= 1
    || Multiplies(v)
    || (if v < 0 then Wrap(v * ABS_MAX) < dim - 1 else Wrap(v * ABS_MAX) >= ABS_MAX * (dim - 1))
  }

  /** The scale is right exactly when the product fits 64 bits, or wraps to one on the same side of the screen. */
  lemma ScaleIsRightExactly(v: int64, dim: int64)
    ensures Scale(v, dim) == Exact(v, dim) <==> ScalesRight(v, dim)
  {
    if Multiplies(v) {
      ScaleIsExact(v, dim);
    } else if dim > 1 {
      var n, p := dim - 1, v * ABS_MAX;
      ClampDivIs(Wrap(p), n);
      ClampDivIs(p, n);
      if v >= 0 && p < ABS_MAX * n { WrapsToAnother(p, n); }
    }
  }

  lemma WrapsToAnother(p: int, n: int)
    requires 0 < n < TWO63 <= p < ABS_MAX * n
    ensures ClampDiv(Wrap(p), n) != ClampDiv(p, n)
  {
    WrapFar(p);
    ClampDivIs(Wrap(p), n);
    ClampDivIs(p, n);
  }

  /** The first coordinate whose product is 2^63 or more goes to 0, and its opposite to a place on the screen. */
  const FIRST_OVER: int64 := TWO63 / ABS_MAX + 1

  lemma FirstOverflow(dim: int64)
    requires dim > 1 && Multiplies(dim - 1)
    ensures Scale(FIRST_OVER, dim) == 0 && Exact(FIRST_OVER, dim) == ABS_MAX
    ensures Scale(-FIRST_OVER, dim) > 0 && Exact(-FIRST_OVER, dim) == 0
  {
    var p := FIRST_OVER * ABS_MAX;
    assert Wrap(p) == p - TWO64 && Wrap(-p) == TWO64 - p;
    ClampDivIs(Wrap(p), dim - 1);
    ClampDivIs(Wrap(-p), dim - 1);
    PastTheScreen(FIRST_OVER, dim);
    BeforeTheScreen(-FIRST_OVER, dim);
  }

  /** A coordinate far to the left of a common screen lands at its right edge. */
  lemma FarLeftLandsRight()
    ensures Scale(-0x2_0000_0000_0000, 1920) == ABS_MAX && Exact(-0x2_0000_0000_0000, 1920) == 0
  {
    var v := -0x2_0000_0000_0000;
    assert Wrap(v * ABS_MAX) == 0x2_0000_0000_0000;
    ClampDivIs(0x2_0000_0000_0000, 1919);
    BeforeTheScreen(v, 1920);
  }

  /** The first pixel goes to 0, and the last to the end exactly when its product fits 64 bits. */
  lemma EndPoints(dim: int64)
    requires dim > 1
    ensures Scale(0, dim) == 0
    ensures Scale(dim - 1, dim) == ABS_MAX <==> Multiplies(dim - 1)
  {
    BeforeTheScreen(0, dim);
    PastTheScreen(dim - 1, dim);
    ScaleIsRightExactly(dim - 1, dim);
  }

  /** Where the scale is right, a later coordinate never goes further back, on the screen and off it. */
  lemma Monotone(u: int64, v: int64, dim: int64)
    requires u <= v && ScalesRight(u, dim) && ScalesRight(v, dim)
    ensures Scale(u, dim) <= Scale(v, dim)
  {
    ScaleIsRightExactly(u, dim);
    ScaleIsRightExactly(v, dim);
    ExactMonotone(u, v, dim);
  }

  predicate MonotoneWithin(low: int64, high: int64, dim: int64) {
    forall u: int64, v: int64 | low <= u <= v <= high :: Scale(u, dim) <= Scale(v, dim)
  }

  lemma MultipliesBetween(low: int64, v: int64, high: int64)
    requires low <= v <= high && Multiplies(low) && Multiplies(high)
    ensures Multiplies(v)
  {
  }

  /** The largest product that fits 64 bits, that of the coordinate before the first one too large. */
  const LAST_PRODUCT := (FIRST_OVER - 1) * ABS_MAX

  /** The first product that does not fit takes the scale back to 0, on any screen that the one before it is seen on. */
  lemma FallsBack(dim: int64)
    requires 1 < dim <= LAST_PRODUCT + 1
    ensures Scale(FIRST_OVER - 1, dim) > 0 && Scale(FIRST_OVER, dim) == 0
  {
    var p := FIRST_OVER * ABS_MAX;
    assert Wrap(p) == p - TWO64 && Wrap(LAST_PRODUCT) == LAST_PRODUCT;
    ClampDivIs(Wrap(p), dim - 1);
    ClampDivIs(LAST_PRODUCT, dim - 1);
  }

  /** The inverse of the factor, as 64-bit products go. */
  const UNSCALE := 0xefff_dfff_bfff_7fff

  /** The one coordinate whose product wraps to `w`. */
  function Unwrapped(w: int64): int64 { Wrap(w * UNSCALE) }

  lemma WrapDiffers(x: int) returns (k: int)
    ensures Wrap(x) == x - k * TWO64
  {
    k := (x + TWO63) / TWO64;
  }

  lemma SameWrap(v: int64, x: int, m: int)
    requires v == x + m * TWO64
    ensures Wrap(x) == v
  {
    var k := WrapDiffers(x);
    assert (m + k) * TWO64 == v - Wrap(x);
  }

  lemma UnwrapsOne(v: int64, w: int64)
    requires Wrap(v * ABS_MAX) == w
    ensures v == Unwrapped(w)
  {
    var k := WrapDiffers(v * ABS_MAX);
    var t := (UNSCALE * ABS_MAX - 1) / TWO64;
    assert UNSCALE * ABS_MAX == 1 + t * TWO64;
    assert v * ABS_MAX == w + k * TWO64;
    Unscaled(v, w, k, t);
    SameWrap(v, w * UNSCALE, k * UNSCALE - t * v);
  }

  lemma Unscaled(v: int, w: int, k: int, t: int)
    requires UNSCALE * ABS_MAX == 1 + t * TWO64 && v * ABS_MAX == w + k * TWO64
    ensures v == w * UNSCALE + (k * UNSCALE - t * v) * TWO64
  {
    calc {
      v + t * v * TWO64;
      v * (1 + t * TWO64);
      v * ABS_MAX * UNSCALE;
      (w + k * TWO64) * UNSCALE;
      w * UNSCALE + k * UNSCALE * TWO64;
    }
  }

  /** The coordinate whose product wraps to the number behind that one, and how much further left that of the next is. */
  const FAR_LEFT := -0x0fff_1ffe_3ffc_7ff9
  const FURTHER := TWO64 - UNSCALE

  lemma UnwrappedIs(w: int64)
    requires w > LAST_PRODUCT
    ensures var v := FAR_LEFT - (w - LAST_PRODUCT - 1) * FURTHER; Unwrapped(w) == v && Wrap(v * ABS_MAX) == w
  {
    var d := w - LAST_PRODUCT - 1;
    var v := FAR_LEFT - d * FURTHER;
    var m := ((LAST_PRODUCT + 1) * UNSCALE - FAR_LEFT) / TWO64;
    assert (LAST_PRODUCT + 1) * UNSCALE == FAR_LEFT + m * TWO64;
    SameWrap(v, w * UNSCALE, -m - d);
    var b := (FAR_LEFT * ABS_MAX - LAST_PRODUCT - 1) / TWO64;
    assert FAR_LEFT * ABS_MAX == LAST_PRODUCT + 1 + b * TWO64;
    var t := (FURTHER * ABS_MAX + 1) / TWO64;
    assert FURTHER * ABS_MAX == t * TWO64 - 1;
    SameWrap(w, v * ABS_MAX, d * t - b);
  }

  /** Numbers behind the largest product are wrapped to from far to the left only, the smaller ones from nearer. */
  lemma OnlyFarLeft(w: int64, n: int64)
    requires LAST_PRODUCT < n <= w
    ensures Unwrapped(w) <= Unwrapped(n) < 0 && Wrap(Unwrapped(n) * ABS_MAX) == n
  {
    UnwrappedIs(w);
    UnwrappedIs(n);
  }

  /** A screen as wide as that shows no coordinate but these away from 0. */
  lemma ZeroButFarLeft(v: int64, dim: int64)
    requires dim > LAST_PRODUCT + 1 && v > Unwrapped(dim - 1)
    ensures Scale(v, dim) == 0
  {
    var w := Wrap(v * ABS_MAX);
    ClampDivIs(w, dim - 1);
    if w >= dim - 1 {
      UnwrapsOne(v, w);
      OnlyFarLeft(w, dim - 1);
    }
  }

  lemma FarLeftIsSeen(dim: int64)
    requires dim > LAST_PRODUCT + 1
    ensures Unwrapped(dim - 1) < 0 && Scale(Unwrapped(dim - 1), dim) > 0 && Scale(0, dim) == 0
  {
    OnlyFarLeft(dim - 1, dim - 1);
    ClampDivIs(dim - 1, dim - 1);
    ClampDivIs(0, dim - 1);
  }

  /** Over a range that has the screen in it, the scale is monotone exactly when both ends' products fit 64 bits; or, on a
      screen wider than the largest product, where it is 0 almost everywhere, when the range starts behind the one
      coordinate whose product wraps to the last pixel. */
  lemma MonotoneExactlyWithoutOverflow(low: int64, high: int64, dim: int64)
    requires dim > 1 && low <= 0 && dim - 1 <= high
    ensures MonotoneWithin(low, high, dim) <==>
              if dim - 1 <= LAST_PRODUCT then Multiplies(low) && Multiplies(high) else low > Unwrapped(dim - 1)
  {
    if dim - 1 > LAST_PRODUCT {
      MonotoneOnWidest(low, high, dim);
    } else if Multiplies(low) && Multiplies(high) {
      forall u: int64, v: int64 | low <= u <= v <= high ensures Scale(u, dim) <= Scale(v, dim) {
        MultipliesBetween(low, u, high);
        MultipliesBetween(low, v, high);
        Monotone(u, v, dim);
      }
    } else if !Multiplies(high) {
      FallsBack(dim);
      assert low <= FIRST_OVER - 1 < FIRST_OVER <= high;
    } else {
      MultipliesBetween(0, dim - 1, high);
      FirstOverflow(dim);
      EndPoints(dim);
      assert low <= -FIRST_OVER <= 0 <= high && Scale(-FIRST_OVER, dim) > Scale(0, dim);
    }
  }

  lemma MonotoneOnWidest(low: int64, high: int64, dim: int64)
    requires dim - 1 > LAST_PRODUCT && low <= 0 && dim - 1 <= high
    ensures MonotoneWithin(low, high, dim) <==> low > Unwrapped(dim - 1)
  {
    if low > Unwrapped(dim - 1) {
      forall v: int64 | low <= v <= high ensures Scale(v, dim) == 0 { ZeroButFarLeft(v, dim); }
    } else {
      FarLeftIsSeen(dim);
      assert low <= Unwrapped(dim - 1) <= 0 <= high && Scale(Unwrapped(dim - 1), dim) > Scale(0, dim);
    }
  }

  // ---------------------------------------------------------------- back to the pixel

  function CeilDiv(a: int, n: int): int
    requires n > 0
  {
    -(-a / n)
  }

  lemma CloseBelow(p: int, v: int)
    requires v * ABS_MAX - ABS_MAX < p <= v * ABS_MAX
    ensures CeilDiv(p, ABS_MAX) == v && v - 1 <= p / ABS_MAX <= v
  {
  }

  /** On a dimension of up to 32768 pixels, rounding up gives the pixel back; rounding down gives it or the one
      before. */
  lemma PixelIsRecovered(v: int64, dim: int64)
    requires 1 < dim <= ABS_MAX + 1 && 0 <= v < dim
    ensures CeilDiv(Scale(v, dim) * (dim - 1), ABS_MAX) == v
    ensures v - 1 <= Scale(v, dim) * (dim - 1) / ABS_MAX <= v
  {
    ScaleIsExact(v, dim);
    OnTheScreen(v, dim);
    CloseBelow(Scale(v, dim) * (dim - 1), v);
  }

  lemma StrictlyMonotone(u: int64, v: int64, dim: int64)
    requires 1 < dim <= ABS_MAX + 1 && 0 <= u < v < dim
    ensures Scale(u, dim) < Scale(v, dim)
  {
    Monotone(u, v, dim);
    if Scale(u, dim) == Scale(v, dim) {
      PixelIsRecovered(u, dim);
      PixelIsRecovered(v, dim);
    }
  }

  predicate Injective(dim: int64) {
    forall u: int64, v: int64 | 0 <= u < v < dim :: Scale(u, dim) != Scale(v, dim)
  }

  /** No two pixels share a position exactly when the dimension has at most 32768. */
  lemma InjectiveUpTo32768(dim: int64)
    ensures Injective(dim) <==> dim <= ABS_MAX + 1
  {
    if 1 < dim <= ABS_MAX + 1 {
      forall u: int64, v: int64 | 0 <= u < v < dim ensures Scale(u, dim) != Scale(v, dim) {
        StrictlyMonotone(u, v, dim);
      }
    } else if dim > ABS_MAX + 1 {
      DivIs(ABS_MAX, dim - 1, 0);
      assert Scale(0, dim) == 0 && Scale(1, dim) == 0;
    }
  }
}
