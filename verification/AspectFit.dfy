/** Fitting a video into the framebuffer: the source's display aspect ratio is its pixel
    dimensions times its pixel aspect ratio, and the result has even dimensions. */
module AspectFit {
  datatype Size = Size(w: int, h: int)

  /** `round(a / b)`: to the nearest integer, a tie to the even one. */
  function Round(a: nat, b: nat): nat
    requires b > 0
  {
    var q, r := a / b, a % b;
    if 2 * r < b || (2 * r == b && q % 2 == 0) then q else q + 1
  }

  function EvenDown(n: int): int {
    var m := n - n % 2;
    if m < 2 then 2 else m
  }

  predicate Positive(s: Size) {
    s.w > 0 && s.h > 0
  }

  /** The display aspect ratio of a source; a malformed pixel aspect ratio counts as
      square. */
  function Display(src: Size, parN: int, parD: int): (d: Size)
    requires Positive(src)
    ensures Positive(d)
  {
    var (n, d) := if parN <= 0 || parD <= 0 then (1, 1) else (parN, parD);
    MulPositive(src.w, n);
    MulPositive(src.h, d);
    Size(src.w * n, src.h * d)
  }

  /** The size before the rounding down to even. */
  function Scaled(d: Size, fb: Size): Size
    requires Positive(d) && Positive(fb)
  {
    MulPositive(fb.w, d.h);
    MulPositive(fb.h, d.w);
    if d.w * fb.h >= d.h * fb.w then Size(fb.w, Round(fb.w * d.h, d.w)) else Size(Round(fb.h * d.w, d.h), fb.h)
  }

  function ComputeFitDims(src: Size, parN: int, parD: int, fb: Size): Size {
    if !Positive(src) || !Positive(fb) then fb
    else
      var s := Scaled(Display(src, parN, parD), fb);
      Size(EvenDown(s.w), EvenDown(s.h))
  }

  lemma MulPositive(a: int, b: int)
    requires a > 0 && b > 0
    ensures a * b > 0
  {
  }

  // ----- Rounding -----

  /** `n` is nearest to a / b, and even if it is half-way. */
  predicate IsRound(a: int, b: int, n: int) {
    -b <= 2 * (a - n * b) <= b && (2 * (a - n * b) == b || 2 * (a - n * b) == -b ==> n % 2 == 0)
  }

  lemma RoundIsRound(a: nat, b: nat)
    requires b > 0
    ensures IsRound(a, b, Round(a, b))
  {
    var q, r := a / b, a % b;
    assert a == q * b + r;
    assert (q + 1) * b == q * b + b;
  }

  lemma RoundIsUnique(a: nat, b: nat, n: int)
    requires b > 0 && IsRound(a, b, n)
    ensures n == Round(a, b)
  {
    RoundIsRound(a, b);
    NearestIsUnique(a, b, n, Round(a, b));
  }

  lemma NearestIsUnique(a: int, b: nat, n: int, m: int)
    requires b > 0 && IsRound(a, b, n) && IsRound(a, b, m)
    ensures n == m
  {
    if n > m {
      NoTwoNearest(a, b, n, m);
    } else if m > n {
      NoTwoNearest(a, b, m, n);
    }
  }

  lemma NoTwoNearest(a: int, b: nat, n: int, m: int)
    requires b > 0 && n > m && IsRound(a, b, n)
    ensures !IsRound(a, b, m)
  {
    if n == m + 1 {
      assert n * b == m * b + b;
    } else {
      MulMonotone(m + 2, n, b);
      assert (m + 2) * b == m * b + 2 * b;
    }
  }

  lemma MulMonotone(x: int, y: int, b: nat)
    requires x <= y
    ensures x * b <= y * b
  {
    assert y * b - x * b == (y - x) * b;
    MulNonNegative(y - x, b);
  }

  lemma MulNonNegative(a: int, b: int)
    requires a >= 0 && b >= 0
    ensures a * b >= 0
  {
  }

  lemma RoundIsScaleFree(a: nat, b: nat, k: nat)
    requires b > 0 && k > 0
    ensures k * b > 0 && k * a >= 0 && Round(k * a, k * b) == Round(a, b)
  {
    MulPositive(k, b);
    MulNonNegative(k, a);
    RoundIsRound(a, b);
    var n := Round(a, b);
    var e := a - n * b;
    Factor(k, a, n, b);
    ScaleBounds(k, e, b);
    RoundIsUnique(k * a, k * b, n);
  }

  lemma Factor(k: int, a: int, n: int, b: int)
    ensures k * a - n * (k * b) == k * (a - n * b)
  {
    assert n * (k * b) == k * (n * b);
  }

  lemma ScaleBounds(k: nat, e: int, b: nat)
    requires k > 0 && 2 * e <= b && -2 * e <= b
    ensures 2 * (k * e) <= k * b && -2 * (k * e) <= k * b
    ensures 2 * (k * e) == k * b ==> 2 * e == b
    ensures -2 * (k * e) == k * b ==> -2 * e == b
  {
    assert k * (b - 2 * e) == k * b - 2 * (k * e);
    assert k * (b + 2 * e) == k * b + 2 * (k * e);
    MulNonNegative(k, b - 2 * e);
    MulNonNegative(k, b + 2 * e);
    if b - 2 * e > 0 {
      MulPositive(k, b - 2 * e);
    }
    if b + 2 * e > 0 {
      MulPositive(k, b + 2 * e);
    }
  }

  lemma RoundStaysBelow(a: nat, b: nat, most: nat)
    requires b > 0 && a <= most * b
    ensures Round(a, b) <= most
  {
    RoundIsRound(a, b);
    var n := Round(a, b);
    if n > most {
      var over := n - most - 1;
      Distribute(most, over, b);
      MulNonNegative(over, b);
      assert false;
    }
  }

  lemma Distribute(m: int, d: int, b: int)
    ensures (m + d + 1) * b == m * b + d * b + b
  {
  }

  lemma EvenDownFits(n: int, most: int)
    requires n <= most && most >= 2
    ensures EvenDown(n) % 2 == 0 && 2 <= EvenDown(n) <= most
  {
  }

  // ----- The result fits -----

  /** The result is even, at least 2 by 2, inside the framebuffer, and reaches it, up to
      evenness, on one axis. */
  lemma FitsTheFramebuffer(src: Size, parN: int, parD: int, fb: Size)
    requires src.w > 0 && src.h > 0 && fb.w >= 2 && fb.h >= 2
    ensures var r := ComputeFitDims(src, parN, parD, fb);
      && r.w % 2 == 0 && r.h % 2 == 0 && 2 <= r.w <= fb.w && 2 <= r.h <= fb.h
      && (r.w == fb.w - fb.w % 2 || r.h == fb.h - fb.h % 2)
  {
    var d := Display(src, parN, parD);
    MulPositive(fb.w, d.h);
    MulPositive(fb.h, d.w);
    if d.w * fb.h >= d.h * fb.w {
      RoundStaysBelow(fb.w * d.h, d.w, fb.h);
    } else {
      RoundStaysBelow(fb.h * d.w, d.h, fb.w);
    }
    var s := Scaled(d, fb);
    assert s.w <= fb.w && s.h <= fb.h && (s.w == fb.w || s.h == fb.h);
    EvenDownFits(s.w, fb.w);
    EvenDownFits(s.h, fb.h);
  }

  /** When the minimum of two does not bind, the result differs from the display aspect
      by less than one and a half pixels on the computed axis, give or take the pixel
      the other axis may lose to evenness. */
  lemma KeepsTheAspect(src: Size, parN: int, parD: int, fb: Size)
    requires src.w > 0 && src.h > 0 && fb.w >= 2 && fb.h >= 2
    requires var (n, m) := if parN > 0 && parD > 0 then (parN, parD) else (1, 1);
      var dw, dh := src.w * n, src.h * m;
      if dw * fb.h >= dh * fb.w then 2 * (fb.w * dh) >= 3 * dw else 2 * (fb.h * dw) >= 3 * dh
    ensures var (n, m) := if parN > 0 && parD > 0 then (parN, parD) else (1, 1);
      var dw, dh, r := src.w * n, src.h * m, ComputeFitDims(src, parN, parD, fb);
      if dw * fb.h >= dh * fb.w
      then r.w == fb.w - fb.w % 2 && -3 * dw <= 2 * (r.h * dw - r.w * dh) <= dw + 2 * dh
      else r.h == fb.h - fb.h % 2 && -3 * dh <= 2 * (r.w * dh - r.h * dw) <= dh + 2 * dw
  {
    var d := Display(src, parN, parD);
    MulPositive(fb.w, d.h);
    MulPositive(fb.h, d.w);
    if d.w * fb.h >= d.h * fb.w {
      AxisBound(fb.w, d.h, d.w);
    } else {
      AxisBound(fb.h, d.w, d.h);
    }
  }

  /** The minimum of two does not bind from one and a half pixels on. */
  lemma RoundReachesTwo(a: nat, b: nat)
    requires b > 0 && 2 * a >= 3 * b
    ensures Round(a, b) >= 2
  {
    var q, r := a / b, a % b;
    assert a == q * b + r;
    if q < 2 {
      assert q * b == if q == 0 then 0 else b;
    }
  }

  /** A pixel aspect ratio that is not positive counts as square. */
  lemma MalformedParIsSquare(src: Size, parN: int, parD: int, fb: Size)
    requires parN <= 0 || parD <= 0
    ensures ComputeFitDims(src, parN, parD, fb) == ComputeFitDims(src, 1, 1, fb)
  {
  }

  /** Without a source or a framebuffer to speak of, the framebuffer is returned as it is. */
  lemma DegenerateFillsTheFramebuffer(src: Size, parN: int, parD: int, fb: Size)
    requires src.w <= 0 || src.h <= 0 || fb.w <= 0 || fb.h <= 0
    ensures ComputeFitDims(src, parN, parD, fb) == fb
  {
  }

  lemma AxisBound(full: nat, num: nat, den: nat)
    requires den > 0 && full >= 2 && full * num >= 0
    requires 2 * (full * num) >= 3 * den
    ensures var w, h := EvenDown(full), EvenDown(Round(full * num, den));
      -3 * den <= 2 * (h * den - w * num) <= den + 2 * num
  {
    RoundIsRound(full * num, den);
    var n := Round(full * num, den);
    RoundReachesTwo(full * num, den);
    var w, h := EvenDown(full), EvenDown(n);
    assert (full - 1) * num == full * num - num;
    assert (n - 1) * den == n * den - den;
  }

  // ----- It depends only on the aspect ratio -----

  lemma ScaledIsScaleFree(d: Size, k: nat, fb: Size)
    requires Positive(d) && Positive(fb) && k > 0
    ensures k * d.w > 0 && k * d.h > 0 && Scaled(Size(k * d.w, k * d.h), fb) == Scaled(d, fb)
  {
    MulPositive(k, d.w);
    MulPositive(k, d.h);
    MulPositive(fb.w, d.h);
    MulPositive(fb.h, d.w);
    RoundIsScaleFree(fb.w * d.h, d.w, k);
    RoundIsScaleFree(fb.h * d.w, d.h, k);
    Reorder(k, fb.w, d.h);
    Reorder(k, fb.h, d.w);
    OrderIsScaleFree(k, d.w * fb.h, d.h * fb.w);
  }

  lemma Reorder(k: int, f: int, x: int)
    ensures k * (f * x) == f * (k * x) && (k * x) * f == k * (x * f)
  {
  }

  lemma OrderIsScaleFree(k: nat, p: int, q: int)
    requires k > 0
    ensures k * p >= k * q <==> p >= q
  {
    assert k * (p - q) == k * p - k * q && k * (q - p) == k * q - k * p;
    if p >= q {
      MulNonNegative(k, p - q);
    } else {
      MulPositive(k, q - p);
    }
  }

  /** Scaling the source, or writing its pixel aspect ratio with a common factor, changes
      nothing. */
  lemma SourceScaleIsIrrelevant(src: Size, parN: int, parD: int, fb: Size, k: nat)
    requires Positive(src) && Positive(fb) && k > 0
    ensures ComputeFitDims(Size(k * src.w, k * src.h), parN, parD, fb) == ComputeFitDims(src, parN, parD, fb)
    ensures ComputeFitDims(src, k * parN, k * parD, fb) == ComputeFitDims(src, parN, parD, fb)
  {
    MulPositive(k, src.w);
    MulPositive(k, src.h);
    var d := Display(src, parN, parD);
    ScaledIsScaleFree(d, k, fb);
    SignIsKept(k, parN);
    SignIsKept(k, parD);
    if parN > 0 && parD > 0 {
      Reorder(k, parN, src.w);
      Reorder(k, parD, src.h);
      assert Display(Size(k * src.w, k * src.h), parN, parD) == Size(k * d.w, k * d.h);
      assert Display(src, k * parN, k * parD) == Size(k * d.w, k * d.h) by {
        Reorder(k, src.w, parN);
        Reorder(k, src.h, parD);
      }
    }
  }

  lemma SignIsKept(k: nat, n: int)
    requires k > 0
    ensures k * n <= 0 <==> n <= 0
  {
    if n > 0 {
      MulPositive(k, n);
    } else {
      MulNonNegative(k, -n);
    }
  }

  function Transposed(s: Size): Size {
    Size(s.h, s.w)
  }

  /** Turning the source, its pixels and the framebuffer on their side turns the result. */
  lemma FitCommutesWithTransposition(src: Size, parN: int, parD: int, fb: Size)
    ensures ComputeFitDims(Transposed(src), parD, parN, Transposed(fb))
      == Transposed(ComputeFitDims(src, parN, parD, fb))
  {
    if Positive(src) && Positive(fb) {
      var d := Display(src, parN, parD);
      assert Display(Transposed(src), parD, parN) == Transposed(d);
      MulPositive(fb.w, d.h);
      MulPositive(fb.h, d.w);
      if d.w * fb.h == d.h * fb.w {
        ExactFit(fb.h, d.w);
        ExactFit(fb.w, d.h);
        assert fb.w * d.h == fb.h * d.w;
      }
    }
  }

  lemma ExactFit(n: nat, b: nat)
    requires b > 0
    ensures n * b >= 0 && Round(n * b, b) == n
  {
    MulNonNegative(n, b);
    assert n * b - n * b == 0;
    RoundIsUnique(n * b, b, n);
  }

  /** A source that already has the framebuffer's aspect fills it, up to evenness. */
  lemma MatchingAspectFills(src: Size, parN: int, parD: int, fb: Size)
    requires src.w > 0 && src.h > 0 && fb.w >= 2 && fb.h >= 2
    requires var (n, m) := if parN > 0 && parD > 0 then (parN, parD) else (1, 1);
      src.w * n * fb.h == src.h * m * fb.w
    ensures ComputeFitDims(src, parN, parD, fb) == Size(fb.w - fb.w % 2, fb.h - fb.h % 2)
  {
    var d := Display(src, parN, parD);
    ExactFit(fb.h, d.w);
    assert fb.w * d.h == fb.h * d.w;
  }
}
