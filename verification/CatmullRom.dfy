/**
  The Catmull-Rom segment that smooth charts are drawn with, between the second and the
  third of four control values: how far it can leave the control values, and exactly
  when it stays between the two values it joins.

  The first rests on the weights of the four values, of which the outer two are negative
  but never add up to less than minus one eighth. The second rests on a quadratic form:
  what a segment is above its start is t times such a form in t and 1 - t, so it stays
  above exactly when the form is nowhere negative in the first quadrant.
*/
module CatmullRom {
  /** The segment at t, before rounding. */
  function Segment(a: real, b: real, c: real, d: real, t: real): (y: real) {
    0.5 * (2.0 * b + (c - a) * t + (2.0 * a - 5.0 * b + 4.0 * c - d) * (t * t)
           + (3.0 * b - a - 3.0 * c + d) * (t * t * t))
  }

  /**
    The segment is the Catmull-Rom spline's: the Hermite cubic from b to c whose slope at
    either end is half the distance between that end's neighbours.
  */
  lemma {:induction false} SegmentIsHermite(a: real, b: real, c: real, d: real, t: real)
    ensures
      var m, n := (c - a) / 2.0, (d - b) / 2.0;
      Segment(a, b, c, d, t) ==
        (2.0 * (t * t * t) - 3.0 * (t * t) + 1.0) * b + (t * t * t - 2.0 * (t * t) + t) * m
        + (3.0 * (t * t) - 2.0 * (t * t * t)) * c + (t * t * t - t * t) * n
  {
  }

  /** Evenly spaced values are joined by a straight line. */
  lemma {:induction false} SegmentIsStraight(b: real, h: real, t: real)
    ensures Segment(b - h, b, b + h, b + 2.0 * h, t) == b + h * t
  {
  }

  lemma {:induction false} SegmentEnds(a: real, b: real, c: real, d: real)
    ensures Segment(a, b, c, d, 0.0) == b && Segment(a, b, c, d, 1.0) == c
  {
  }

  /** Upside down, and backwards. */
  lemma {:induction false} SegmentMirrors(a: real, b: real, c: real, d: real, t: real)
    ensures Segment(-a, -b, -c, -d, t) == -Segment(a, b, c, d, t)
    ensures Segment(d, c, b, a, 1.0 - t) == Segment(a, b, c, d, t)
  {
  }

  // ---------------------------------------------------------------- how far it can go

  lemma {:induction false} Times(x: real, y: real, w: real)
    requires x <= y && w >= 0.0
    ensures x * w <= y * w
  {
  }

  lemma {:induction false} SquareBelow(t: real)
    requires 0.0 <= t <= 1.0
    ensures t * t <= t
  {
  }

  lemma {:induction false} Quarter(w: real, x: real)
    requires w <= 0.25 && x >= 0.0
    ensures w * x <= x / 4.0
  {
  }

  /** Twice the weights of the four values, the outer two with their sign turned. */
  function Wa(t: real): (w: real) { t * ((1.0 - t) * (1.0 - t)) }

  function Wb(t: real): (w: real) { (1.0 - t) * (2.0 + 2.0 * t - 3.0 * (t * t)) }

  function Wc(t: real): (w: real) { t * (1.0 + 4.0 * t - 3.0 * (t * t)) }

  function Wd(t: real): (w: real) { t * (t * (1.0 - t)) }

  lemma {:induction false} Weighted(a: real, b: real, c: real, d: real, t: real)
    ensures 2.0 * Segment(a, b, c, d, t) == (b * Wb(t) + c * Wc(t)) - (a * Wa(t) + d * Wd(t))
  {
  }

  lemma {:induction false} SquareNonNegative(x: real)
    ensures x * x >= 0.0
  {
  }

  lemma {:induction false} ProductNonNegative(x: real, y: real)
    requires x >= 0.0 && y >= 0.0
    ensures x * y >= 0.0
  {
  }

  lemma {:induction false} PositiveProduct(x: real, y: real, z: real)
    requires x > 0.0 && y > 0.0 && z == x * y
    ensures z > 0.0
  {
  }

  lemma {:induction false} InnerFactors(t: real, sq: real)
    requires 0.0 <= t <= 1.0 && sq <= t
    ensures 2.0 + 2.0 * t - 3.0 * sq >= 0.0 && 1.0 + 4.0 * t - 3.0 * sq >= 0.0
  {
  }

  lemma {:induction false} OuterWeights(t: real)
    requires 0.0 <= t <= 1.0
    ensures Wa(t) >= 0.0 && Wd(t) >= 0.0
  {
    var s := 1.0 - t;
    ProductNonNegative(s, s);
    ProductNonNegative(t, s * s);
    ProductNonNegative(t, s);
    ProductNonNegative(t, t * s);
  }

  lemma {:induction false} InnerWeights(t: real)
    requires 0.0 <= t <= 1.0
    ensures Wb(t) >= 0.0 && Wc(t) >= 0.0
  {
    SquareBelow(t);
    InnerFactors(t, t * t);
    ProductNonNegative(1.0 - t, 2.0 + 2.0 * t - 3.0 * (t * t));
    ProductNonNegative(t, 1.0 + 4.0 * t - 3.0 * (t * t));
  }

  lemma {:induction false} WeightSums(t: real)
    ensures Wb(t) + Wc(t) - Wa(t) - Wd(t) == 2.0 && Wa(t) + Wd(t) <= 0.25
  {
    SquareNonNegative(t - 0.5);
    assert (t - 0.5) * (t - 0.5) == t * t - t + 0.25;
    assert Wa(t) + Wd(t) == t - t * t;
  }

  lemma {:induction false} Add(x: real, y: real, u: real, v: real)
    requires x <= u && y <= v
    ensures x + y <= u + v
  {
  }

  lemma {:induction false} TimesSum(h: real, u: real, v: real)
    ensures h * u + h * v == h * (u + v)
  {
  }

  lemma {:induction false} Difference(pos: real, neg: real, hw: real, lw: real, lo: real, hi: real)
    requires pos <= 2.0 * hi + hw && lw <= neg && hw - lw <= (hi - lo) / 4.0
    ensures pos - neg <= 2.0 * hi + (hi - lo) / 4.0
  {
  }

  lemma {:induction false} PositivePart(b: real, c: real, wb: real, wc: real, hi: real, w: real)
    requires b <= hi && c <= hi && wb >= 0.0 && wc >= 0.0 && wb + wc == 2.0 + w
    ensures b * wb + c * wc <= 2.0 * hi + hi * w
  {
    Times(b, hi, wb);
    Times(c, hi, wc);
    Add(b * wb, c * wc, hi * wb, hi * wc);
    TimesSum(hi, wb, wc);
    TimesSum(hi, 2.0, w);
  }

  lemma {:induction false} NegativePart(a: real, d: real, wa: real, wd: real, lo: real)
    requires lo <= a && lo <= d && wa >= 0.0 && wd >= 0.0
    ensures lo * (wa + wd) <= a * wa + d * wd
  {
    Times(lo, a, wa);
    Times(lo, d, wd);
    Add(lo * wa, lo * wd, a * wa, d * wd);
    TimesSum(lo, wa, wd);
  }

  lemma {:induction false} Spread(lo: real, hi: real, w: real)
    requires lo <= hi && w <= 0.25
    ensures hi * w - lo * w <= (hi - lo) / 4.0
  {
    Quarter(w, hi - lo);
    assert w * (hi - lo) == hi * w - lo * w;
  }

  /** Two values weighed positively and two negatively, none outside lo and hi. */
  lemma {:induction false} Combine(a: real, b: real, c: real, d: real, wa: real, wb: real, wc: real, wd: real, lo: real, hi: real)
    requires lo <= a && b <= hi && c <= hi && lo <= d && lo <= hi
    requires wa >= 0.0 && wb >= 0.0 && wc >= 0.0 && wd >= 0.0
    requires wb + wc - wa - wd == 2.0 && wa + wd <= 0.25
    ensures (b * wb + c * wc) - (a * wa + d * wd) <= 2.0 * hi + (hi - lo) / 4.0
  {
    var w := wa + wd;
    PositivePart(b, c, wb, wc, hi, w);
    NegativePart(a, d, wa, wd, lo);
    Spread(lo, hi, w);
    Difference(b * wb + c * wc, a * wa + d * wd, hi * w, lo * w, lo, hi);
  }

  /** A segment rises above its control values by at most an eighth of their extent. */
  lemma {:induction false} SegmentBelow(a: real, b: real, c: real, d: real, t: real, lo: real, hi: real)
    requires 0.0 <= t <= 1.0 && lo <= a <= hi && lo <= b <= hi && lo <= c <= hi && lo <= d <= hi
    ensures Segment(a, b, c, d, t) <= hi + (hi - lo) / 8.0
  {
    OuterWeights(t);
    InnerWeights(t);
    WeightSums(t);
    Weighted(a, b, c, d, t);
    Combine(a, b, c, d, Wa(t), Wb(t), Wc(t), Wd(t), lo, hi);
  }

  lemma {:induction false} SegmentWithin(a: real, b: real, c: real, d: real, t: real, lo: real, hi: real)
    requires 0.0 <= t <= 1.0 && lo <= a <= hi && lo <= b <= hi && lo <= c <= hi && lo <= d <= hi
    ensures lo - (hi - lo) / 8.0 <= Segment(a, b, c, d, t) <= hi + (hi - lo) / 8.0
  {
    SegmentBelow(a, b, c, d, t, lo, hi);
    SegmentBelow(-a, -b, -c, -d, t, -hi, -lo);
    SegmentMirrors(a, b, c, d, t);
  }

  // ---------------------------------------------------------------- when it stays between its ends

  /** A quadratic form, and when it is nowhere negative in the first quadrant. */
  function Form(p: real, q: real, r: real, s: real, t: real): (v: real) {
    p * (s * s) + q * (s * t) + r * (t * t)
  }

  predicate Copositive(p: real, q: real, r: real) {
    p >= 0.0 && r >= 0.0 && (q >= 0.0 || q * q <= 4.0 * (p * r))
  }

  lemma {:induction false} QuarterPositive(x: real, y: real)
    requires x > 0.0 && x <= 4.0 * y
    ensures y > 0.0
  {
  }

  lemma {:induction false} FirstFactor(p: real, r: real)
    requires p >= 0.0 && p * r > 0.0
    ensures p > 0.0
  {
  }

  lemma {:induction false} LeadingTerm(p: real, q: real, r: real, square: real)
    requires p >= 0.0 && q < 0.0 && square == q * q && square <= 4.0 * (p * r)
    ensures p > 0.0
  {
    assert square == -q * -q;
    PositiveProduct(-q, -q, square);
    QuarterPositive(square, p * r);
    FirstFactor(p, r);
  }

  lemma {:induction false} NegativeFactor(x: real, y: real)
    requires x > 0.0 && x * y >= 0.0
    ensures y >= 0.0
  {
  }

  lemma {:induction false} CompleteSquare(p: real, q: real, r: real, s: real, t: real)
    ensures 4.0 * (p * Form(p, q, r, s, t)) == (2.0 * p * s + q * t) * (2.0 * p * s + q * t) + (4.0 * (p * r) - q * q) * (t * t)
  {
  }

  lemma {:induction false} CopositiveHolds(p: real, q: real, r: real, s: real, t: real)
    requires Copositive(p, q, r) && s >= 0.0 && t >= 0.0
    ensures Form(p, q, r, s, t) >= 0.0
  {
    SquareNonNegative(s);
    SquareNonNegative(t);
    if q >= 0.0 {
      ProductNonNegative(p, s * s);
      ProductNonNegative(r, t * t);
      ProductNonNegative(s, t);
      ProductNonNegative(q, s * t);
    } else {
      LeadingTerm(p, q, r, q * q);
      CompleteSquare(p, q, r, s, t);
      SquareNonNegative(2.0 * p * s + q * t);
      ProductNonNegative(4.0 * (p * r) - q * q, t * t);
      NegativeFactor(4.0 * p, Form(p, q, r, s, t));
    }
  }

  lemma {:induction false} FormScales(p: real, q: real, r: real, s: real, t: real, m: real)
    ensures Form(p, q, r, m * s, m * t) == m * m * Form(p, q, r, s, t)
  {
    assert (m * s) * (m * s) == m * m * (s * s);
    assert (m * s) * (m * t) == m * m * (s * t);
    assert (m * t) * (m * t) == m * m * (t * t);
  }

  function OnUnit(p: real, q: real, r: real, t: real): (v: real) { Form(p, q, r, 1.0 - t, t) }

  /** Nowhere negative on the open side of the unit segment. */
  ghost predicate NeverNegative(p: real, q: real, r: real) {
    forall t :: 0.0 < t <= 1.0 ==> OnUnit(p, q, r, t) >= 0.0
  }

  /** A direction in which the form is negative refutes that. */
  lemma {:induction false} Refutes(p: real, q: real, r: real, s: real, t: real)
    requires s >= 0.0 && t > 0.0 && Form(p, q, r, s, t) < 0.0
    ensures !NeverNegative(p, q, r)
  {
    var m := s + t;
    var u := t / m;
    assert m * u == t && m * (1.0 - u) == s;
    FormScales(p, q, r, 1.0 - u, u, m);
    if Form(p, q, r, 1.0 - u, u) >= 0.0 {
      SquareNonNegative(m);
      ProductNonNegative(m * m, Form(p, q, r, 1.0 - u, u));
      assert false;
    }
    assert 0.0 < u <= 1.0 && OnUnit(p, q, r, u) < 0.0;
  }

  function Abs(x: real): (y: real)
    ensures y >= 0.0 && y >= x && y >= -x
  {
    if x < 0.0 then -x else x
  }

  lemma {:induction false} SmallTerms(q: real, r: real, t: real)
    requires 0.0 < t <= 1.0
    ensures q * t + r * (t * t) <= (Abs(q) + Abs(r)) * t
  {
    Times(q, Abs(q), t);
    SquareNonNegative(t);
    Times(r, Abs(r), t * t);
    SquareBelow(t);
    Times(t * t, t, Abs(r));
    assert (Abs(q) + Abs(r)) * t == Abs(q) * t + Abs(r) * t;
  }

  /** A place so close to the end that the other terms do not make up for p. */
  lemma {:induction false} CloseEnough(p: real, k: real) returns (t: real)
    requires p < 0.0 && k >= 0.0
    ensures 0.0 < t <= 1.0 && k * t < -p
  {
    t := -p / (k + 1.0 - p);
    assert t * (k + 1.0 - p) == -p;
    assert t * (k + 1.0 - p) == k * t + t * (1.0 - p);
    assert 0.0 < t <= 1.0;
    PositiveProduct(t, 1.0 - p, t * (1.0 - p));
  }

  lemma {:induction false} SumBelowZero(p: real, x: real, y: real, k: real)
    requires x + y <= k && k < -p
    ensures p + x + y < 0.0
  {
  }

  /** A negative p shows close to the other end. */
  lemma {:induction false} NegativeStart(p: real, q: real, r: real)
    requires p < 0.0
    ensures !NeverNegative(p, q, r)
  {
    var k := Abs(q) + Abs(r);
    var t := CloseEnough(p, k);
    SmallTerms(q, r, t);
    SumBelowZero(p, q * t, r * (t * t), k * t);
    assert Form(p, q, r, 1.0, t) == p + q * t + r * (t * t);
    Refutes(p, q, r, 1.0, t);
  }

  /** A mixed term that is too negative shows in between. */
  lemma {:induction false} NegativeMiddle(p: real, q: real, r: real)
    requires p >= 0.0 && r >= 0.0 && q < 0.0 && q * q > 4.0 * (p * r)
    ensures !NeverNegative(p, q, r)
  {
    if r > 0.0 {
      var s, t := 2.0 * r, -q;
      assert Form(p, q, r, s, t) == r * (4.0 * (p * r) - q * q);
      PositiveProduct(r, q * q - 4.0 * (p * r), r * (q * q - 4.0 * (p * r)));
      Refutes(p, q, r, s, t);
    } else {
      var t := (p + 1.0) / -q;
      assert q * t == -(p + 1.0);
      assert t > 0.0;
      assert Form(p, q, r, 1.0, t) == p + q * t;
      Refutes(p, q, r, 1.0, t);
    }
  }

  lemma {:induction false} CopositiveExactly(p: real, q: real, r: real)
    requires r >= 0.0
    ensures NeverNegative(p, q, r) <==> Copositive(p, q, r)
  {
    if Copositive(p, q, r) {
      forall t | 0.0 < t <= 1.0 ensures OnUnit(p, q, r, t) >= 0.0 {
        CopositiveHolds(p, q, r, 1.0 - t, t);
      }
    } else if p < 0.0 {
      NegativeStart(p, q, r);
    } else {
      NegativeMiddle(p, q, r);
    }
  }

  /** Above its first end, as a form. */
  lemma {:induction false} SegmentAsForm(a: real, b: real, c: real, d: real, t: real)
    ensures 2.0 * (Segment(a, b, c, d, t) - b) ==
            t * Form(c - a, 6.0 * (c - b) - (d - b), 2.0 * (c - b), 1.0 - t, t)
  {
  }

  ghost predicate StaysAbove(a: real, b: real, c: real, d: real) {
    forall t :: 0.0 <= t <= 1.0 ==> Segment(a, b, c, d, t) >= b
  }

  /** A segment that does not fall stays above its start exactly under this condition. */
  lemma {:induction false} AboveExactly(a: real, b: real, c: real, d: real)
    requires b <= c
    ensures StaysAbove(a, b, c, d) <==> Copositive(c - a, 6.0 * (c - b) - (d - b), 2.0 * (c - b))
  {
    var p, q, r := c - a, 6.0 * (c - b) - (d - b), 2.0 * (c - b);
    CopositiveExactly(p, q, r);
    forall t | 0.0 < t <= 1.0 ensures Segment(a, b, c, d, t) >= b <==> OnUnit(p, q, r, t) >= 0.0 {
      SegmentAsForm(a, b, c, d, t);
      SameSign(t, OnUnit(p, q, r, t));
    }
    SegmentEnds(a, b, c, d);
    if StaysAbove(a, b, c, d) {
      assert forall t :: 0.0 < t <= 1.0 ==> Segment(a, b, c, d, t) >= b ==> OnUnit(p, q, r, t) >= 0.0;
      assert NeverNegative(p, q, r);
    }
  }

  lemma {:induction false} SameSign(t: real, f: real)
    requires t > 0.0
    ensures t * f >= 0.0 <==> f >= 0.0
  {
  }

  ghost predicate StaysBelow(a: real, b: real, c: real, d: real) {
    forall t :: 0.0 <= t <= 1.0 ==> Segment(a, b, c, d, t) <= c
  }

  /** The same seen from its other end, upside down. */
  lemma {:induction false} BelowIsAbove(a: real, b: real, c: real, d: real)
    ensures StaysBelow(a, b, c, d) <==> StaysAbove(-d, -c, -b, -a)
  {
    var e, f, g, h := -d, -c, -b, -a;
    forall t ensures Segment(e, f, g, h, t) == -Segment(a, b, c, d, 1.0 - t) {
      SegmentMirrors(a, b, c, d, 1.0 - t);
      SegmentMirrors(d, c, b, a, t);
    }
    if StaysAbove(e, f, g, h) {
      forall t | 0.0 <= t <= 1.0 ensures Segment(a, b, c, d, t) <= c {
        assert Segment(e, f, g, h, 1.0 - t) >= f;
        assert 1.0 - (1.0 - t) == t;
      }
    }
  }

  /** Between the two values it joins, all along. */
  ghost predicate StaysBetween(a: real, b: real, c: real, d: real) {
    forall t :: 0.0 <= t <= 1.0 ==>
      (b <= Segment(a, b, c, d, t) <= c || c <= Segment(a, b, c, d, t) <= b)
  }

  /**
    The condition for a segment that rises by h = c - b, from a neighbour u = c - a below
    its end to one v = d - b above its start: both neighbours on their side, and neither
    so far off that the other end is overshot.
  */
  predicate CalmRise(u: real, v: real, h: real) {
    && u >= 0.0 && v >= 0.0
    && (v <= 6.0 * h || (v - 6.0 * h) * (v - 6.0 * h) <= 8.0 * (u * h))
    && (u <= 6.0 * h || (u - 6.0 * h) * (u - 6.0 * h) <= 8.0 * (v * h))
  }

  predicate Calm(a: real, b: real, c: real, d: real) {
    if b <= c then CalmRise(c - a, d - b, c - b) else CalmRise(a - c, b - d, b - c)
  }

  lemma {:induction false} CalmIsCopositive(u: real, v: real, h: real)
    requires h >= 0.0
    ensures CalmRise(u, v, h) <==>
            Copositive(u, 6.0 * h - v, 2.0 * h) && Copositive(v, 6.0 * h - u, 2.0 * h)
  {
    assert (6.0 * h - v) * (6.0 * h - v) == (v - 6.0 * h) * (v - 6.0 * h);
    assert (6.0 * h - u) * (6.0 * h - u) == (u - 6.0 * h) * (u - 6.0 * h);
    assert 4.0 * (u * (2.0 * h)) == 8.0 * (u * h) && 4.0 * (v * (2.0 * h)) == 8.0 * (v * h);
  }

  lemma {:induction false} RiseExactly(a: real, b: real, c: real, d: real)
    requires b <= c
    ensures StaysAbove(a, b, c, d) && StaysBelow(a, b, c, d) <==> CalmRise(c - a, d - b, c - b)
  {
    AboveExactly(a, b, c, d);
    BelowIsAbove(a, b, c, d);
    AboveExactly(-d, -c, -b, -a);
    CalmIsCopositive(c - a, d - b, c - b);
    assert -b - -d == d - b && 6.0 * (-b - -c) - (-a - -c) == 6.0 * (c - b) - (c - a) && 2.0 * (-b - -c) == 2.0 * (c - b);
  }

  /** A segment stays between the two values it joins exactly when it is calm. */
  lemma {:induction false} BetweenExactly(a: real, b: real, c: real, d: real)
    ensures StaysBetween(a, b, c, d) <==> Calm(a, b, c, d)
  {
    if b <= c {
      RiseExactly(a, b, c, d);
    } else {
      var e, f, g, h := -a, -b, -c, -d;
      RiseExactly(e, f, g, h);
      forall t ensures Segment(e, f, g, h, t) == -Segment(a, b, c, d, t) {
        SegmentMirrors(a, b, c, d, t);
      }
      assert g - e == a - c && h - f == b - d && g - f == b - c;
    }
  }
}
