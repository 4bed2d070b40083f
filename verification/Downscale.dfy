/** Box downscaling of monitor thumbnails (server/internal/httpapi/monitor.go). */
module Downscale {

  type Channel = x: int | 0 <= x <= 0xFFFF

  datatype Pixel = Pixel(r: Channel, g: Channel, b: Channel, a: Channel)

  type Eight = x: int | 0 <= x <= 0xFF

  datatype Rgba = Rgba(r: Eight, g: Eight, b: Eight, a: Eight)

  /** A source image: what color each point has. */
  type Source = (int, int) -> Pixel

  // ---- division ----

  lemma MulSign(n: int, k: int)
    requires n > 0
    ensures k >= 1 ==> n * k >= n
    ensures k <= -1 ==> n * k <= -n
  {
  }

  lemma DivUnique(a: int, n: int, q: int)
    requires n > 0 && n * q <= a < n * q + n
    ensures a / n == q
  {
    MulSign(n, q - a / n);
    assert n * q == n * (a / n) + n * (q - a / n);
  }

  lemma DivMono(a: int, b: int, n: int)
    requires n > 0 && a <= b
    ensures a / n <= b / n
  {
    DivFacts(a, n);
    DivFacts(b, n);
    Distribute(n, a / n, b / n);
    MulSign(n, a / n - b / n);
  }

  lemma DivFacts(a: int, n: int)
    requires n > 0
    ensures n * (a / n) <= a < n * (a / n) + n
  {
  }

  lemma Distribute(n: int, a: int, b: int)
    ensures n * (a - b) == n * a - n * b
  {
  }

  lemma DivExact(k: int, n: int)
    requires n > 0
    ensures n * k / n == k
  {
    DivUnique(n * k, n, k);
  }

  lemma AddOne(a: int, n: int)
    requires n > 0
    ensures (a + n) / n == a / n + 1
  {
    assert n * (a / n + 1) == n * (a / n) + n;
    DivUnique(a + n, n, a / n + 1);
  }

  // ---- output size ----

  function AtLeastOne(n: int): int {
    if n < 1 then 1 else n
  }

  /** Scale so that the longer side becomes `max`, if some side exceeds it. */
  function TargetWidth(w: int, h: int, max: int): int
    requires w > 0 && h > 0
  {
    if w <= max && h <= max then w else if w >= h then AtLeastOne(max) else AtLeastOne(w * max / h)
  }

  function TargetHeight(w: int, h: int, max: int): int
    requires w > 0 && h > 0
  {
    if w <= max && h <= max then h else if w >= h then AtLeastOne(h * max / w) else AtLeastOne(max)
  }

  lemma ScaledSide(short: int, long: int, max: int)
    requires 0 < short <= long && 1 <= max < long
    ensures 0 <= short * max / long <= max && short * max / long <= short
  {
    assert 0 <= short * max <= long * max && short * max <= long * short;
    DivMono(0, short * max, long);
    DivMono(short * max, long * max, long);
    DivMono(short * max, long * short, long);
    DivExact(max, long);
    DivExact(short, long);
  }

  /** A limit below one leaves nothing after clamping but a single pixel. */
  lemma NoRoom(short: int, long: int, max: int)
    requires 0 < short && 0 < long && max < 1
    ensures short * max / long <= 0
  {
    assert short * max <= 0;
    DivMono(short * max, 0, long);
  }

  /** Output sides are at least one, no larger than the source's, and at most `max`
      unless `max` itself is below one. */
  lemma TargetSizeBounds(w: int, h: int, max: int)
    requires w > 0 && h > 0
    ensures 1 <= TargetWidth(w, h, max) <= w && 1 <= TargetHeight(w, h, max) <= h
    ensures TargetWidth(w, h, max) <= AtLeastOne(max) && TargetHeight(w, h, max) <= AtLeastOne(max)
  {
    if w > max || h > max {
      var short, long := if w >= h then h else w, if w >= h then w else h;
      if max >= 1 {
        ScaledSide(short, long, max);
      } else {
        NoRoom(short, long, max);
      }
    }
  }

  /** `n` is `a` divided by `b` and rounded down, but at least one. */
  predicate Scaled(n: int, a: int, b: int) {
    n >= 1 && a < (n + 1) * b && (n * b <= a || n == 1)
  }

  /** The longer side becomes `max` exactly, the other one keeps the ratio, rounded down. */
  lemma TargetSizeIs(w: int, h: int, max: int)
    requires w > 0 && h > 0 && max >= 1
    ensures var nw, nh := TargetWidth(w, h, max), TargetHeight(w, h, max);
      && (w <= max && h <= max ==> nw == w && nh == h)
      && (w > max && w >= h ==> nw == max && Scaled(nh, h * max, w))
      && (h > max && h > w ==> nh == max && Scaled(nw, w * max, h))
  {
    if w > max && w >= h {
      ScaledIs(h * max, w);
    } else if h > max {
      ScaledIs(w * max, h);
    }
  }

  lemma ScaledIs(a: int, b: int)
    requires a >= 0 && b > 0
    ensures Scaled(AtLeastOne(a / b), a, b)
  {
    DivFacts(a, b);
    assert b * (a / b) + b == (a / b + 1) * b && b * (a / b) == (a / b) * b;
    if a / b < 1 {
      DivMono(0, a, b);
      assert a / b == 0;
    }
  }

  // ---- boxes ----

  /** Where box `d` of `n` begins along a side of length `len`. */
  function Edge(d: int, n: int, len: int): int
    requires n > 0
  {
    d * len / n
  }

  /** The exact proportion, rounded down. */
  lemma EdgeIs(d: int, n: int, len: int)
    requires n > 0
    ensures n * Edge(d, n, len) <= d * len < n * Edge(d, n, len) + n
  {
    DivFacts(d * len, n);
  }

  /** No box is more than one larger than another. */
  lemma BoxesEven(d: int, n: int, len: int)
    requires n > 0
    ensures len / n <= Edge(d + 1, n, len) - Edge(d, n, len) <= len / n + 1
  {
    var a, b, q := Edge(d, n, len), Edge(d + 1, n, len), len / n;
    EdgeIs(d, n, len);
    EdgeIs(d + 1, n, len);
    DivFacts(len, n);
    assert (d + 1) * len == d * len + len;
    Distribute(n, b, a);
    Distribute(n, b - a, q);
    MulSign(n, b - a - q);
    Distribute(n, b - a - q, 1);
    MulSign(n, b - a - q - 1);
  }

  lemma EdgeStep(d: nat, n: int, len: int)
    requires 0 < n <= len
    ensures Edge(d, n, len) < Edge(d + 1, n, len)
  {
    assert (d + 1) * len == d * len + len;
    assert d * len + n <= d * len + len;
    AddOne(d * len, n);
    DivMono(d * len + n, d * len + len, n);
  }

  lemma EdgeEnds(n: int, len: int)
    requires 0 < n && 0 <= len
    ensures Edge(0, n, len) == 0 && Edge(n, n, len) == len
  {
    DivExact(len, n);
  }

  lemma {:induction false} EdgeMono(c: nat, d: nat, n: int, len: int)
    requires 0 < n <= len && c <= d
    ensures Edge(c, n, len) <= Edge(d, n, len)
    ensures c < d ==> Edge(c, n, len) < Edge(d, n, len)
    decreases d
  {
    if c < d {
      EdgeMono(c, d - 1, n, len);
      EdgeStep(d - 1, n, len);
    }
  }

  predicate InBox(x: int, d: int, n: int, len: int)
    requires n > 0
  {
    Edge(d, n, len) <= x < Edge(d + 1, n, len)
  }

  lemma {:induction false} BoxExists(x: int, k: nat, n: int, len: int) returns (d: nat)
    requires 0 < n <= len && 0 <= x < Edge(k, n, len) && k <= n
    ensures d < k && InBox(x, d, n, len)
    decreases k
  {
    EdgeEnds(n, len);
    if x < Edge(k - 1, n, len) {
      d := BoxExists(x, k - 1, n, len);
    } else {
      d := k - 1;
    }
  }

  /** Boxes are nonempty and partition the side: every coordinate is in exactly one. */
  lemma BoxesPartition(x: int, n: int, len: int)
    requires 0 < n <= len && 0 <= x < len
    ensures exists d :: 0 <= d < n && InBox(x, d, n, len)
    ensures forall c, d :: 0 <= c < n && 0 <= d < n && InBox(x, c, n, len) && InBox(x, d, n, len) ==> c == d
  {
    EdgeEnds(n, len);
    var e := BoxExists(x, n, n, len);
    forall c, d | 0 <= c < d < n ensures !(InBox(x, c, n, len) && InBox(x, d, n, len)) {
      EdgeMono(c + 1, d, n, len);
    }
  }

  // ---- sums ----

  ghost function RowSum(at: Source, ch: Pixel -> Channel, y: int, x0: int, x1: int): int
    decreases x1 - x0
  {
    if x1 <= x0 then 0 else RowSum(at, ch, y, x0, x1 - 1) + ch(at(x1 - 1, y))
  }

  ghost function BoxSum(at: Source, ch: Pixel -> Channel, x0: int, x1: int, y0: int, y1: int): int
    decreases y1 - y0
  {
    if y1 <= y0 then 0 else BoxSum(at, ch, x0, x1, y0, y1 - 1) + RowSum(at, ch, y1 - 1, x0, x1)
  }

  lemma {:induction false} RowSplit(at: Source, ch: Pixel -> Channel, y: int, x0: int, x1: int, x2: int)
    requires x0 <= x1 <= x2
    ensures RowSum(at, ch, y, x0, x2) == RowSum(at, ch, y, x0, x1) + RowSum(at, ch, y, x1, x2)
    decreases x2 - x1
  {
    if x1 < x2 {
      RowSplit(at, ch, y, x0, x1, x2 - 1);
    }
  }

  lemma {:induction false} BoxSplitY(at: Source, ch: Pixel -> Channel, x0: int, x1: int, y0: int, y1: int, y2: int)
    requires y0 <= y1 <= y2
    ensures BoxSum(at, ch, x0, x1, y0, y2) == BoxSum(at, ch, x0, x1, y0, y1) + BoxSum(at, ch, x0, x1, y1, y2)
    decreases y2 - y1
  {
    if y1 < y2 {
      BoxSplitY(at, ch, x0, x1, y0, y1, y2 - 1);
    }
  }

  lemma {:induction false} BoxSplitX(at: Source, ch: Pixel -> Channel, x0: int, x1: int, x2: int, y0: int, y1: int)
    requires x0 <= x1 <= x2
    ensures BoxSum(at, ch, x0, x2, y0, y1) == BoxSum(at, ch, x0, x1, y0, y1) + BoxSum(at, ch, x1, x2, y0, y1)
    decreases y1 - y0
  {
    if y0 < y1 {
      BoxSplitX(at, ch, x0, x1, x2, y0, y1 - 1);
      RowSplit(at, ch, y1 - 1, x0, x1, x2);
    }
  }

  /** The sums of the first `k` boxes in a row of boxes. */
  ghost function BoxRow(at: Source, ch: Pixel -> Channel, nw: int, w: int, k: nat, y0: int, y1: int): int
    requires nw > 0
  {
    if k == 0 then 0
    else BoxRow(at, ch, nw, w, k - 1, y0, y1) + BoxSum(at, ch, Edge(k - 1, nw, w), Edge(k, nw, w), y0, y1)
  }

  /** The sums of all boxes in the first `k` rows of boxes. */
  ghost function BoxRows(at: Source, ch: Pixel -> Channel, nw: int, nh: int, w: int, h: int, k: nat): int
    requires nw > 0 && nh > 0
  {
    if k == 0 then 0
    else BoxRows(at, ch, nw, nh, w, h, k - 1) + BoxRow(at, ch, nw, w, nw, Edge(k - 1, nh, h), Edge(k, nh, h))
  }

  lemma {:induction false} BoxRowIsWhole(at: Source, ch: Pixel -> Channel, nw: int, w: int, k: nat, y0: int, y1: int)
    requires 0 < nw <= w && k <= nw
    ensures BoxRow(at, ch, nw, w, k, y0, y1) == BoxSum(at, ch, 0, Edge(k, nw, w), y0, y1)
  {
    EdgeEnds(nw, w);
    if k == 0 {
      EmptyBox(at, ch, 0, y0, y1);
    } else {
      BoxRowIsWhole(at, ch, nw, w, k - 1, y0, y1);
      EdgeMono(0, k - 1, nw, w);
      EdgeStep(k - 1, nw, w);
      BoxSplitX(at, ch, 0, Edge(k - 1, nw, w), Edge(k, nw, w), y0, y1);
    }
  }

  lemma {:induction false} EmptyBox(at: Source, ch: Pixel -> Channel, x: int, y0: int, y1: int)
    ensures BoxSum(at, ch, x, x, y0, y1) == 0
    decreases y1 - y0
  {
    if y0 < y1 {
      EmptyBox(at, ch, x, y0, y1 - 1);
    }
  }

  lemma {:induction false} BoxRowsAreWhole(at: Source, ch: Pixel -> Channel, nw: int, nh: int, w: int, h: int, k: nat)
    requires 0 < nw <= w && 0 < nh <= h && k <= nh
    ensures BoxRows(at, ch, nw, nh, w, h, k) == BoxSum(at, ch, 0, w, 0, Edge(k, nh, h))
  {
    EdgeEnds(nh, h);
    EdgeEnds(nw, w);
    if k > 0 {
      BoxRowsAreWhole(at, ch, nw, nh, w, h, k - 1);
      BoxRowIsWhole(at, ch, nw, w, nw, Edge(k - 1, nh, h), Edge(k, nh, h));
      EdgeMono(0, k - 1, nh, h);
      EdgeStep(k - 1, nh, h);
      BoxSplitY(at, ch, 0, w, 0, Edge(k - 1, nh, h), Edge(k, nh, h));
    }
  }

  /** Each pixel is counted exactly once: summed over all boxes, a channel adds up to
      its sum over the whole image. */
  lemma EveryPixelCountedOnce(at: Source, ch: Pixel -> Channel, nw: int, nh: int, w: int, h: int)
    requires 0 < nw <= w && 0 < nh <= h
    ensures BoxRows(at, ch, nw, nh, w, h, nh) == BoxSum(at, ch, 0, w, 0, h)
  {
    EdgeEnds(nh, h);
    BoxRowsAreWhole(at, ch, nw, nh, w, h, nh);
  }

  // ---- averages ----

  lemma {:induction false} RowBetween(at: Source, ch: Pixel -> Channel, y: int, x0: int, x1: int, lo: int, hi: int)
    requires x0 <= x1 && forall x :: x0 <= x < x1 ==> lo <= ch(at(x, y)) <= hi
    ensures lo * (x1 - x0) <= RowSum(at, ch, y, x0, x1) <= hi * (x1 - x0)
    decreases x1 - x0
  {
    if x0 < x1 {
      RowBetween(at, ch, y, x0, x1 - 1, lo, hi);
      assert lo * (x1 - x0) == lo * (x1 - 1 - x0) + lo;
      assert hi * (x1 - x0) == hi * (x1 - 1 - x0) + hi;
    }
  }

  lemma {:induction false} BoxBetween(at: Source, ch: Pixel -> Channel, x0: int, x1: int, y0: int, y1: int,
                                      lo: int, hi: int)
    requires x0 <= x1 && y0 <= y1
    requires forall x, y :: x0 <= x < x1 && y0 <= y < y1 ==> lo <= ch(at(x, y)) <= hi
    ensures lo * (x1 - x0) * (y1 - y0) <= BoxSum(at, ch, x0, x1, y0, y1) <= hi * (x1 - x0) * (y1 - y0)
    decreases y1 - y0
  {
    if y0 < y1 {
      BoxBetween(at, ch, x0, x1, y0, y1 - 1, lo, hi);
      RowBetween(at, ch, y1 - 1, x0, x1, lo, hi);
      OneMore(lo * (x1 - x0), y1 - y0);
      OneMore(hi * (x1 - x0), y1 - y0);
    }
  }

  lemma OneMore(a: int, n: int)
    ensures a * n == a * (n - 1) + a
  {
  }

  function Area(x0: int, x1: int, y0: int, y1: int): (n: int)
    requires x0 < x1 && y0 < y1
    ensures n > 0
  {
    (x1 - x0) * (y1 - y0)
  }

  /** The value a channel gets: the box average, cut to eight bits. */
  ghost function Average(at: Source, ch: Pixel -> Channel, x0: int, x1: int, y0: int, y1: int): int
    requires x0 < x1 && y0 < y1
  {
    BoxSum(at, ch, x0, x1, y0, y1) / Area(x0, x1, y0, y1) / 256
  }

  /** An averaged channel lies between its box's smallest and largest value. */
  lemma AverageBetween(at: Source, ch: Pixel -> Channel, x0: int, x1: int, y0: int, y1: int, lo: int, hi: int)
    requires x0 < x1 && y0 < y1 && 0 <= lo <= hi
    requires forall x, y :: x0 <= x < x1 && y0 <= y < y1 ==> lo <= ch(at(x, y)) <= hi
    ensures lo / 256 <= Average(at, ch, x0, x1, y0, y1) <= hi / 256
  {
    var n := Area(x0, x1, y0, y1);
    BoxBetween(at, ch, x0, x1, y0, y1, lo, hi);
    var sum := BoxSum(at, ch, x0, x1, y0, y1);
    assert lo * (x1 - x0) * (y1 - y0) == n * lo && hi * (x1 - x0) * (y1 - y0) == n * hi;
    DivMono(n * lo, sum, n);
    DivMono(sum, n * hi, n);
    DivExact(lo, n);
    DivExact(hi, n);
    DivMono(lo, sum / n, 256);
    DivMono(sum / n, hi, 256);
  }

  /** The average in units of 256, rounded down. */
  lemma AverageIs(at: Source, ch: Pixel -> Channel, x0: int, x1: int, y0: int, y1: int)
    requires x0 < x1 && y0 < y1
    ensures var n, avg := (x1 - x0) * (y1 - y0), Average(at, ch, x0, x1, y0, y1);
      n * (256 * avg) <= BoxSum(at, ch, x0, x1, y0, y1) < n * (256 * avg + 256)
  {
    var n, sum := Area(x0, x1, y0, y1), BoxSum(at, ch, x0, x1, y0, y1);
    RoundedTwice(sum, n);
  }

  lemma RoundedTwice(sum: int, n: int)
    requires n > 0
    ensures n * (256 * (sum / n / 256)) <= sum < n * (256 * (sum / n / 256) + 256)
  {
    var q := sum / n;
    DivFacts(sum, n);
    DivFacts(q, 256);
    Scale(n, 256 * (q / 256), q);
    Scale(n, q + 1, 256 * (q / 256) + 256);
    assert n * (q + 1) == n * q + n;
  }

  lemma Scale(n: int, a: int, b: int)
    requires n > 0 && a <= b
    ensures n * a <= n * b
  {
  }

  /** The box of one pixel has that pixel's channel as its sum; together with BoxSplitX and
      BoxSplitY this fixes the sum of every box. */
  lemma OnePixel(at: Source, ch: Pixel -> Channel, x: int, y: int)
    ensures BoxSum(at, ch, x, x + 1, y, y + 1) == ch(at(x, y))
  {
    assert RowSum(at, ch, y, x, x + 1) == RowSum(at, ch, y, x, x) + ch(at(x, y));
    assert BoxSum(at, ch, x, x + 1, y, y + 1) == BoxSum(at, ch, x, x + 1, y, y) + RowSum(at, ch, y, x, x + 1);
  }

  /** The eight-bit cast loses nothing. */
  lemma AverageFits(at: Source, ch: Pixel -> Channel, x0: int, x1: int, y0: int, y1: int)
    requires x0 < x1 && y0 < y1
    ensures 0 <= Average(at, ch, x0, x1, y0, y1) <= 0xFF
  {
    AverageBetween(at, ch, x0, x1, y0, y1, 0, 0xFFFF);
  }

  // ---- the routine ----

  const RED := (p: Pixel) => p.r
  const GREEN := (p: Pixel) => p.g
  const BLUE := (p: Pixel) => p.b
  const ALPHA := (p: Pixel) => p.a

  /** What one output pixel must be. */
  ghost predicate IsAverage(at: Source, x0: int, x1: int, y0: int, y1: int, out: Rgba)
    requires x0 < x1 && y0 < y1
  {
    && out.r == Average(at, RED, x0, x1, y0, y1)
    && out.g == Average(at, GREEN, x0, x1, y0, y1)
    && out.b == Average(at, BLUE, x0, x1, y0, y1)
    && out.a == Average(at, ALPHA, x0, x1, y0, y1)
  }

  /** A box of one pixel comes out as that pixel, channel by channel, cut to eight bits. */
  lemma PixelAverage(at: Source, x: int, y: int, out: Rgba)
    requires IsAverage(at, x, x + 1, y, y + 1, out)
    ensures out.r == at(x, y).r / 256 && out.g == at(x, y).g / 256
    ensures out.b == at(x, y).b / 256 && out.a == at(x, y).a / 256
  {
    OnePixel(at, RED, x, y);
    OnePixel(at, GREEN, x, y);
    OnePixel(at, BLUE, x, y);
    OnePixel(at, ALPHA, x, y);
  }

  /** The inner two loops: sum a box. */
  method SumBox(at: Source, x0: int, x1: int, y0: int, y1: int) returns (rr: int, gg: int, bb: int, aa: int, n: int)
    requires x0 < x1 && y0 < y1
    ensures rr == BoxSum(at, RED, x0, x1, y0, y1) && gg == BoxSum(at, GREEN, x0, x1, y0, y1)
    ensures bb == BoxSum(at, BLUE, x0, x1, y0, y1) && aa == BoxSum(at, ALPHA, x0, x1, y0, y1)
    ensures n == Area(x0, x1, y0, y1)
  {
    rr, gg, bb, aa, n := 0, 0, 0, 0, 0;
    for y := y0 to y1
      invariant rr == BoxSum(at, RED, x0, x1, y0, y) && gg == BoxSum(at, GREEN, x0, x1, y0, y)
      invariant bb == BoxSum(at, BLUE, x0, x1, y0, y) && aa == BoxSum(at, ALPHA, x0, x1, y0, y)
      invariant n == (x1 - x0) * (y - y0)
    {
      ghost var r0, g0, b0, a0, n0 := rr, gg, bb, aa, n;
      for x := x0 to x1
        invariant rr == r0 + RowSum(at, RED, y, x0, x) && gg == g0 + RowSum(at, GREEN, y, x0, x)
        invariant bb == b0 + RowSum(at, BLUE, y, x0, x) && aa == a0 + RowSum(at, ALPHA, y, x0, x)
        invariant n == n0 + x - x0
      {
        var p := at(x, y);
        rr, gg, bb, aa, n := rr + p.r, gg + p.g, bb + p.b, aa + p.a, n + 1;
      }
      OneMore(x1 - x0, y + 1 - y0);
    }
  }

  /** Output pixel (i, j) is the average of its box. */
  ghost predicate BoxDone(at: Source, minX: int, minY: int, w: int, h: int, nw: int, nh: int, i: int, j: int, out: Rgba)
    requires nw > 0 && nh > 0
  {
    && Edge(i, nw, w) < Edge(i + 1, nw, w) && Edge(j, nh, h) < Edge(j + 1, nh, h)
    && IsAverage(at, minX + Edge(i, nw, w), minX + Edge(i + 1, nw, w),
                 minY + Edge(j, nh, h), minY + Edge(j + 1, nh, h), out)
  }

  /** One output pixel. */
  method AverageBox(at: Source, x0: int, x1: int, y0: int, y1: int) returns (out: Rgba)
    requires x0 < x1 && y0 < y1
    ensures IsAverage(at, x0, x1, y0, y1, out)
  {
    var rr, gg, bb, aa, n := SumBox(at, x0, x1, y0, y1);
    if n == 0 {
      n := 1;
    }
    AverageFits(at, RED, x0, x1, y0, y1);
    AverageFits(at, GREEN, x0, x1, y0, y1);
    AverageFits(at, BLUE, x0, x1, y0, y1);
    AverageFits(at, ALPHA, x0, x1, y0, y1);
    out := Rgba(rr / n / 256, gg / n / 256, bb / n / 256, aa / n / 256);
  }

  /** The outer two loops: fill an image of nw by nh pixels. */
  method Resample(at: Source, minX: int, minY: int, w: int, h: int, nw: int, nh: int) returns (dst: array2<Rgba>)
    requires 1 <= nw <= w && 1 <= nh <= h
    ensures dst.Length0 == nw && dst.Length1 == nh
    ensures forall i, j :: 0 <= i < nw && 0 <= j < nh ==> BoxDone(at, minX, minY, w, h, nw, nh, i, j, dst[i, j])
  {
    dst := new Rgba[nw, nh];
    for dy := 0 to nh
      invariant forall i, j :: 0 <= i < nw && 0 <= j < dy ==> BoxDone(at, minX, minY, w, h, nw, nh, i, j, dst[i, j])
    {
      var sy0, sy1 := Span(minY, dy, nh, h);
      for dx := 0 to nw
        invariant forall i, j :: 0 <= i < nw && 0 <= j < dy ==> BoxDone(at, minX, minY, w, h, nw, nh, i, j, dst[i, j])
        invariant forall i :: 0 <= i < dx ==> BoxDone(at, minX, minY, w, h, nw, nh, i, dy, dst[i, dy])
      {
        var sx0, sx1 := Span(minX, dx, nw, w);
        var p := AverageBox(at, sx0, sx1, sy0, sy1);
        assert BoxDone(at, minX, minY, w, h, nw, nh, dx, dy, p);
        dst[dx, dy] := p;
      }
    }
  }

  /** The source coordinates of box `d`; widening an empty box never happens. */
  method Span(min: int, d: nat, n: int, len: int) returns (from: int, to: int)
    requires 1 <= n <= len
    ensures from == min + Edge(d, n, len) < to == min + Edge(d + 1, n, len)
  {
    EdgeStep(d, n, len);
    from, to := min + d * len / n, min + (d + 1) * len / n;
    if to <= from {
      to := from + 1;
    }
  }

  /** The whole routine on an image whose bounds start at (minX, minY): the source
      itself (null) if it is empty or small enough, else the resampled pixels. */
  method Downscale(at: Source, minX: int, minY: int, w: int, h: int, max: int) returns (dst: array2?<Rgba>)
    ensures dst == null <==> w <= 0 || h <= 0 || (w <= AtLeastOne(max) && h <= AtLeastOne(max))
    ensures dst != null ==>
      && dst.Length0 == TargetWidth(w, h, max) <= w && dst.Length1 == TargetHeight(w, h, max) <= h
      && 1 <= dst.Length0 <= AtLeastOne(max) && 1 <= dst.Length1 <= AtLeastOne(max)
      && forall i, j :: 0 <= i < dst.Length0 && 0 <= j < dst.Length1 ==>
           BoxDone(at, minX, minY, w, h, dst.Length0, dst.Length1, i, j, dst[i, j])
  {
    if w <= 0 || h <= 0 {
      return null;
    }
    var nw, nh := w, h;
    if w > max || h > max {
      if w >= h {
        nw, nh := max, h * max / w;
      } else {
        nh, nw := max, w * max / h;
      }
    }
    nw, nh := AtLeastOne(nw), AtLeastOne(nh);
    TargetSizeBounds(w, h, max);
    if nw == w && nh == h {
      return null;
    }
    dst := Resample(at, minX, minY, w, h, nw, nh);
  }
}
