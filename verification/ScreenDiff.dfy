/** How much of the screen changed (agent/internal/api/screen_diff.go): every fourth pixel of every fourth row of two
    screenshots, by their luma. Percentages are real numbers. */
module ScreenDiff {

  import opened Options

  const STRIDE := 4
  const LUMA_THRESHOLD := 12

  /** What color.Color.RGBA gives: 16 bits a channel. */
  type Channel = x: int | 0 <= x < 0x10000

  datatype Pixel = Pixel(r: Channel, g: Channel, b: Channel)

  datatype Image = Image(width: nat, height: nat, rows: seq<seq<Pixel>>)

  predicate Valid(i: Image) {
    |i.rows| == i.height && forall r | r in i.rows :: |r| == i.width
  }

  function At(i: Image, x: nat, y: nat): Pixel
    requires Valid(i) && x < i.width && y < i.height
  {
    assert i.rows[y] in i.rows;
    i.rows[y][x]
  }

  datatype Error = DecodeBefore | DecodeAfter | EmptyCapture

  datatype Result = Percent(value: real) | Failed(error: Error)

  // ---------------------------------------------------------------- one pixel

  /** Luma of the upper eight bits. */
  function Luma(p: Pixel): (l: int)
    ensures 0 <= l <= 255
  {
    (299 * (p.r / 256) + 587 * (p.g / 256) + 114 * (p.b / 256)) / 1000
  }

  predicate Differs(p: Pixel, q: Pixel) {
    var diff := Luma(p) - Luma(q);
    (if diff < 0 then -diff else diff) > LUMA_THRESHOLD
  }

  /** A gray's luma is its value, and full red, green and blue have 76, 149 and 29. */
  lemma LumaIsWeighted(v: Channel)
    ensures Luma(Pixel(v, v, v)) == v / 256
    ensures Luma(Pixel(0xFFFF, 0, 0)) == 76 && Luma(Pixel(0, 0xFFFF, 0)) == 149 && Luma(Pixel(0, 0, 0xFFFF)) == 29
  {
    var u := v / 256;
    assert 299 * u + 587 * u + 114 * u == 1000 * u;
  }

  /** It is the weighted sum of section 2.5.1 of Recommendation ITU-R BT.601, rounded down. */
  lemma LumaIsBt601(p: Pixel)
    ensures var r, g, b := (p.r / 256) as real, (p.g / 256) as real, (p.b / 256) as real;
            Luma(p) as real <= 0.299 * r + 0.587 * g + 0.114 * b < Luma(p) as real + 1.0
  {
    var l, sum := Luma(p), 299 * (p.r / 256) + 587 * (p.g / 256) + 114 * (p.b / 256);
    assert 1000 * l <= sum < 1000 * l + 1000;
    assert (1000 * l) as real <= sum as real < (1000 * l + 1000) as real;
  }

  /** More of a channel is never darker. */
  lemma LumaIsMonotone(p: Pixel, q: Pixel)
    requires p.r <= q.r && p.g <= q.g && p.b <= q.b
    ensures Luma(p) <= Luma(q)
  {
    WeightedOrder(p.r / 256, p.g / 256, p.b / 256, q.r / 256, q.g / 256, q.b / 256);
  }

  lemma WeightedOrder(r: int, g: int, b: int, r1: int, g1: int, b1: int)
    requires r <= r1 && g <= g1 && b <= b1
    ensures (299 * r + 587 * g + 114 * b) / 1000 <= (299 * r1 + 587 * g1 + 114 * b1) / 1000
  {
    var s, t := 299 * r + 587 * g + 114 * b, 299 * r1 + 587 * g1 + 114 * b1;
    assert s <= t;
  }

  // ---------------------------------------------------------------- the sample

  predicate Comparable(a: Image, b: Image) {
    Valid(a) && Valid(b) && a.width == b.width && a.height == b.height
  }

  /** How many pixels of a line of `n` are looked at: n / 4, rounded up. */
  function Sampled(n: nat): nat { (n + STRIDE - 1) / STRIDE }

  lemma SampledIs(n: nat, k: nat)
    ensures STRIDE * k < n <==> k < Sampled(n)
  {
  }

  /** Whether the sample in column `i` and row `j` of the grid changed. */
  predicate Changed(a: Image, b: Image, i: nat, j: nat)
    requires Comparable(a, b) && i < Sampled(a.width) && j < Sampled(a.height)
  {
    SampledIs(a.width, i);
    SampledIs(a.height, j);
    Differs(At(a, STRIDE * i, STRIDE * j), At(b, STRIDE * i, STRIDE * j))
  }

  /** The changed ones among the first `n` of a row. */
  function RowCount(a: Image, b: Image, n: nat, j: nat): (c: nat)
    requires Comparable(a, b) && n <= Sampled(a.width) && j < Sampled(a.height)
    ensures c <= n
  {
    if n == 0 then 0 else RowCount(a, b, n - 1, j) + if Changed(a, b, n - 1, j) then 1 else 0
  }

  /** And in the first `m` rows. */
  function GridCount(a: Image, b: Image, m: nat): nat
    requires Comparable(a, b) && m <= Sampled(a.height)
  {
    if m == 0 then 0 else GridCount(a, b, m - 1) + RowCount(a, b, Sampled(a.width), m - 1)
  }

  lemma {:induction false} GridCountIsBounded(a: Image, b: Image, m: nat)
    requires Comparable(a, b) && m <= Sampled(a.height)
    ensures GridCount(a, b, m) <= m * Sampled(a.width)
  {
    if m > 0 {
      GridCountIsBounded(a, b, m - 1);
      assert m * Sampled(a.width) == (m - 1) * Sampled(a.width) + Sampled(a.width);
    }
  }

  lemma {:induction false} RowCountIsZero(a: Image, b: Image, n: nat, j: nat)
    requires Comparable(a, b) && n <= Sampled(a.width) && j < Sampled(a.height)
    ensures RowCount(a, b, n, j) == 0 <==> forall i | 0 <= i < n :: !Changed(a, b, i, j)
  {
    if n > 0 { RowCountIsZero(a, b, n - 1, j); }
  }

  lemma {:induction false} GridCountIsZero(a: Image, b: Image, m: nat)
    requires Comparable(a, b) && m <= Sampled(a.height)
    ensures GridCount(a, b, m) == 0
       <==> forall i, j | 0 <= i < Sampled(a.width) && 0 <= j < m :: !Changed(a, b, i, j)
  {
    if m > 0 {
      GridCountIsZero(a, b, m - 1);
      RowCountIsZero(a, b, Sampled(a.width), m - 1);
    }
  }

  lemma {:induction false} RowCountIsSymmetric(a: Image, b: Image, n: nat, j: nat)
    requires Comparable(a, b) && n <= Sampled(a.width) && j < Sampled(a.height)
    ensures RowCount(a, b, n, j) == RowCount(b, a, n, j)
  {
    if n > 0 {
      RowCountIsSymmetric(a, b, n - 1, j);
      assert Changed(a, b, n - 1, j) == Changed(b, a, n - 1, j);
    }
  }

  lemma {:induction false} GridCountIsSymmetric(a: Image, b: Image, m: nat)
    requires Comparable(a, b) && m <= Sampled(a.height)
    ensures GridCount(a, b, m) == GridCount(b, a, m)
  {
    if m > 0 {
      GridCountIsSymmetric(a, b, m - 1);
      RowCountIsSymmetric(a, b, Sampled(a.width), m - 1);
    }
  }

  // ---------------------------------------------------------------- the percentage

  function Total(a: Image): nat { Sampled(a.height) * Sampled(a.width) }

  /** The share of changed samples. */
  function Share(changed: nat, total: nat): real
    requires total > 0
  {
    changed as real / total as real * 100.0
  }

  lemma SamplesExist(a: Image)
    requires a.width > 0 && a.height > 0
    ensures Total(a) > 0
  {
    assert Sampled(a.height) * Sampled(a.width) >= 1 * Sampled(a.width);
  }

  /** What the comparison comes to; a screenshot that does not decode is None. */
  function ChangePercent(before: Option<Image>, after: Option<Image>): Result
    requires before.Some? ==> Valid(before.value)
    requires after.Some? ==> Valid(after.value)
  {
    if before.None? then Failed(DecodeBefore)
    else if after.None? then Failed(DecodeAfter)
    else
      var a, b := before.value, after.value;
      if a.width != b.width || a.height != b.height then Percent(100.0)
      else if a.width == 0 || a.height == 0 then Failed(EmptyCapture)
      else
        SamplesExist(a);
        Percent(Share(GridCount(a, b, Sampled(a.height)), Total(a)))
  }

  lemma ShareIsPercent(changed: nat, total: nat)
    requires total > 0 && changed <= total
    ensures 0.0 <= Share(changed, total) <= 100.0
    ensures Share(changed, total) == 0.0 <==> changed == 0
  {
    var r := changed as real / total as real;
    assert r * total as real == changed as real;
  }

  /** A result is between 0 and 100. */
  lemma PercentInRange(before: Option<Image>, after: Option<Image>)
    requires before.Some? ==> Valid(before.value)
    requires after.Some? ==> Valid(after.value)
    ensures var r := ChangePercent(before, after); r.Percent? ==> 0.0 <= r.value <= 100.0
  {
    if before.Some? && after.Some? && Comparable(before.value, after.value) {
      var a, b := before.value, after.value;
      if a.width > 0 && a.height > 0 {
        SamplesExist(a);
        GridCountIsBounded(a, b, Sampled(a.height));
        ShareIsPercent(GridCount(a, b, Sampled(a.height)), Total(a));
      }
    }
  }

  /** The luma of a pixel in every fourth column and row differs by at most 12. */
  predicate Still(a: Image, b: Image, x: nat, y: nat)
    requires Comparable(a, b) && x < a.width && y < a.height
  {
    x % 4 == 0 && y % 4 == 0 ==> -12 <= Luma(At(a, x, y)) - Luma(At(b, x, y)) <= 12
  }

  lemma StillIsUnchanged(a: Image, b: Image)
    requires Comparable(a, b)
    ensures (forall x, y | 0 <= x < a.width && 0 <= y < a.height :: Still(a, b, x, y))
       <==> (forall i, j | 0 <= i < Sampled(a.width) && 0 <= j < Sampled(a.height) :: !Changed(a, b, i, j))
  {
    if forall x, y | 0 <= x < a.width && 0 <= y < a.height :: Still(a, b, x, y) {
      forall i, j | 0 <= i < Sampled(a.width) && 0 <= j < Sampled(a.height) ensures !Changed(a, b, i, j) {
        SampledIs(a.width, i);
        SampledIs(a.height, j);
        assert Still(a, b, 4 * i, 4 * j);
      }
    }
    if forall i, j | 0 <= i < Sampled(a.width) && 0 <= j < Sampled(a.height) :: !Changed(a, b, i, j) {
      forall x, y | 0 <= x < a.width && 0 <= y < a.height ensures Still(a, b, x, y) {
        if x % 4 == 0 && y % 4 == 0 {
          SampledIs(a.width, x / 4);
          SampledIs(a.height, y / 4);
          assert !Changed(a, b, x / 4, y / 4);
        }
      }
    }
  }

  /** It is 0 exactly when the sizes agree, there is a pixel, and none in every fourth column and row differs by more than 12
      in luma. */
  lemma ZeroMeansNoChange(a: Image, b: Image)
    requires Valid(a) && Valid(b)
    ensures ChangePercent(Some(a), Some(b)) == Percent(0.0)
       <==> Comparable(a, b) && a.width > 0 && a.height > 0
            && forall x, y | 0 <= x < a.width && 0 <= y < a.height :: Still(a, b, x, y)
  {
    if Comparable(a, b) && a.width > 0 && a.height > 0 {
      SamplesExist(a);
      GridCountIsBounded(a, b, Sampled(a.height));
      ShareIsPercent(GridCount(a, b, Sampled(a.height)), Total(a));
      GridCountIsZero(a, b, Sampled(a.height));
      StillIsUnchanged(a, b);
    }
  }

  /** The order of the screenshots does not matter, once both decode. */
  lemma PercentIsSymmetric(a: Image, b: Image)
    requires Valid(a) && Valid(b)
    ensures ChangePercent(Some(a), Some(b)) == ChangePercent(Some(b), Some(a))
  {
    if Comparable(a, b) { GridCountIsSymmetric(a, b, Sampled(a.height)); }
  }

  // ---------------------------------------------------------------- the loops

  /** screenChangePercent, from decoded screenshots. */
  method ScreenChangePercent(before: Option<Image>, after: Option<Image>) returns (r: Result)
    requires before.Some? ==> Valid(before.value)
    requires after.Some? ==> Valid(after.value)
    ensures r == ChangePercent(before, after)
  {
    if before.None? { return Failed(DecodeBefore); }
    if after.None? { return Failed(DecodeAfter); }
    var a, b := before.value, after.value;
    if a.width != b.width || a.height != b.height { return Percent(100.0); }
    if a.width == 0 || a.height == 0 { return Failed(EmptyCapture); }
    SamplesExist(a);
    var changed, total := DiffRows(a, b);
    return Percent(Share(changed, total));
  }

  /** The loops: ceil(w / 4) times ceil(h / 4) pixels are looked at. */
  method DiffRows(a: Image, b: Image) returns (changed: nat, total: nat)
    requires Comparable(a, b)
    ensures changed == GridCount(a, b, Sampled(a.height)) && total == Sampled(a.height) * Sampled(a.width)
  {
    changed, total := 0, 0;
    var y := 0;
    ghost var j := 0;
    while y < a.height
      invariant y == STRIDE * j && j <= Sampled(a.height)
      invariant changed == GridCount(a, b, j) && total == j * Sampled(a.width)
      decreases a.height - y
    {
      SampledIs(a.height, j);
      var inRow, looked := DiffRow(a, b, y, j);
      changed, total := changed + inRow, total + looked;
      OneMoreRow(j, Sampled(a.width));
      j := j + 1;
      y := y + STRIDE;
    }
    SampledIs(a.height, j);
  }

  lemma OneMoreRow(j: nat, n: nat)
    ensures (j + 1) * n == j * n + n
  {
  }

  /** The inner one, along the row at `y`. */
  method DiffRow(a: Image, b: Image, y: nat, ghost j: nat) returns (changed: nat, looked: nat)
    requires Comparable(a, b) && y == STRIDE * j < a.height && j < Sampled(a.height)
    ensures changed == RowCount(a, b, Sampled(a.width), j) && looked == Sampled(a.width)
  {
    changed, looked := 0, 0;
    var x := 0;
    while x < a.width
      invariant x == STRIDE * looked && looked <= Sampled(a.width)
      invariant changed == RowCount(a, b, looked, j)
      decreases a.width - x
    {
      SampledIs(a.width, looked);
      if Differs(At(a, x, y), At(b, x, y)) {
        changed := changed + 1;
      }
      looked := looked + 1;
      x := x + STRIDE;
    }
    SampledIs(a.width, looked);
  }
}
