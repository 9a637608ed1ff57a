/**
  The outline of an area layer in pixels: area_densify turns a boundary into a stepped
  or Catmull-Rom curve, and the layer's polygon is its top curve followed by its
  bottom curve backwards.
*/
module AreaCurve {
  import R = CatmullRom

  datatype Point = Point(x: int, y: int)
  datatype Interp = Smooth | StepAfter | StepBefore

  const MAX_SUBDIV: nat := 20

  // ---------------------------------------------------------------- one segment

  /** C's (int) conversion: towards zero. */
  function Truncate(v: real): (n: int) {
    if v >= 0.0 then v.Floor else -((-v).Floor)
  }

  /** One coordinate of fastchart_catmull_point. */
  function Catmull(p0: int, p1: int, p2: int, p3: int, t: real): (n: int) {
    Truncate(R.Segment(p0 as real, p1 as real, p2 as real, p3 as real, t) + 0.5)
  }

  function CatmullPoint(p0: Point, p1: Point, p2: Point, p3: Point, t: real): (p: Point) {
    Point(Catmull(p0.x, p1.x, p2.x, p3.x, t), Catmull(p0.y, p1.y, p2.y, p3.y, t))
  }

  /** A segment ends on its second control point exactly when that is not negative. */
  lemma {:induction false} CatmullEnds(p0: int, p1: int, p2: int, p3: int)
    ensures Catmull(p0, p1, p2, p3, 1.0) == p2 <==> p2 >= 0
  {
    var c := p2 as real;
    R.SegmentEnds(p0 as real, p1 as real, c, p3 as real);
    assert Catmull(p0, p1, p2, p3, 1.0) == Truncate(c + 0.5);
    if p2 < 0 {
      assert -(c + 0.5) == (-p2) as real - 0.5;
      assert (-(c + 0.5)).Floor == -p2 - 1;
    }
  }

  /**
    A point k/n of the way from the second to the third control point. The charts are
    drawn with CatmullAt; what does not depend on that is stated of every blend.
  */
  type Blend = (Point, Point, Point, Point, nat, nat) -> Point

  /** tt = k / subdiv. */
  function CatmullAt(p0: Point, p1: Point, p2: Point, p3: Point, k: nat, n: nat): (p: Point) {
    CatmullPoint(p0, p1, p2, p3, if n == 0 then 0.0 else k as real / n as real)
  }

  function Abs(n: int): (m: nat) { if n < 0 then -n else n }

  /** Sub-segments of a segment: about one per four pixels, between 2 and 20. */
  function Subdiv(p: Point, q: Point): (n: nat)
    ensures 2 <= n <= MAX_SUBDIV
  {
    var n := (Abs(q.x - p.x) + Abs(q.y - p.y)) / 4;
    if n < 2 then 2 else if n > MAX_SUBDIV then MAX_SUBDIV else n
  }

  /** One sub-segment for every four pixels of way, except for very short and very long ones. */
  lemma {:induction false} SubdivFitsTheWay(p: Point, q: Point)
    ensures
      var way, n := Abs(q.x - p.x) + Abs(q.y - p.y), Subdiv(p, q);
      && (way < 8 ==> n == 2) && (way >= 84 ==> n == 20) && (8 <= way < 84 ==> 4 * n <= way < 4 * n + 4)
  {
  }

  /** The outer control points of segment i: its neighbours, the ends of the curve being repeated. */
  function Earlier(raw: seq<Point>, i: nat): (p: Point)
    requires i + 1 < |raw|
  {
    raw[if i > 0 then i - 1 else i]
  }

  function Later(raw: seq<Point>, i: nat): (p: Point)
    requires i + 1 < |raw|
  {
    raw[if i + 2 < |raw| then i + 2 else i + 1]
  }

  /** Point k of segment i. */
  function CurvePoint(at: Blend, raw: seq<Point>, i: nat, k: nat, subdiv: nat): (p: Point)
    requires i + 1 < |raw| && subdiv > 0
  {
    at(Earlier(raw, i), raw[i], raw[i + 1], Later(raw, i), k, subdiv)
  }

  /**
    Segments join smoothly: the slope that one ends with, half the distance between the
    neighbours of the point (see CatmullRom.SegmentIsHermite), is the slope that the next
    one begins with. At its two ends the curve heads for the neighbour it has.
  */
  lemma {:induction false} SegmentsJoinSmoothly(raw: seq<Point>, i: nat)
    requires i + 1 < |raw|
    ensures i + 2 < |raw| ==>
      && Later(raw, i).x - raw[i].x == raw[i + 2].x - Earlier(raw, i + 1).x
      && Later(raw, i).y - raw[i].y == raw[i + 2].y - Earlier(raw, i + 1).y
    ensures i > 0 ==> Earlier(raw, i) == raw[i - 1]
    ensures i == 0 ==> Earlier(raw, i) == raw[0]
    ensures i + 2 == |raw| ==> Later(raw, i) == raw[i + 1]
  {
  }

  function Segment(at: Blend, raw: seq<Point>, i: nat, k: nat): (ps: seq<Point>)
    requires i + 1 < |raw|
    ensures |ps| == k
    ensures forall j :: 0 <= j < k ==> ps[j] == CurvePoint(at, raw, i, j + 1, Subdiv(raw[i], raw[i + 1]))
  {
    seq(k, j requires 0 <= j < k => CurvePoint(at, raw, i, j + 1, Subdiv(raw[i], raw[i + 1])))
  }

  // ---------------------------------------------------------------- the curve

  /** What segment i adds after point i. */
  function Piece(at: Blend, interp: Interp, raw: seq<Point>, i: nat): (ps: seq<Point>)
    requires i + 1 < |raw|
    ensures 1 <= |ps| <= MAX_SUBDIV
  {
    match interp
    case Smooth => Segment(at, raw, i, Subdiv(raw[i], raw[i + 1]))
    case StepAfter => [Point(raw[i + 1].x, raw[i].y), raw[i + 1]]
    case StepBefore => [Point(raw[i].x, raw[i + 1].y), raw[i + 1]]
  }

  /** The curve through the first n + 1 raw points. */
  function CurveTo(at: Blend, interp: Interp, raw: seq<Point>, n: nat): (ps: seq<Point>)
    requires n < |raw|
    ensures 1 <= |ps| <= 1 + n * MAX_SUBDIV
  {
    if n == 0 then [raw[0]] else CurveTo(at, interp, raw, n - 1) + Piece(at, interp, raw, n - 1)
  }

  function Curve(at: Blend, interp: Interp, raw: seq<Point>): (ps: seq<Point>) {
    if raw == [] then [] else CurveTo(at, interp, raw, |raw| - 1)
  }

  /** The blend ends on its third control point where a pixel cannot be negative. */
  ghost predicate EndsOnPoint(at: Blend) {
    forall a: Point, b: Point, c: Point, d: Point, n: nat ::
      c.x >= 0 && c.y >= 0 && n > 0 ==> at(a, b, c, d, n, n) == c
  }

  lemma {:induction false} CatmullEndsOnPoint()
    ensures EndsOnPoint(CatmullAt)
  {
    forall a: Point, b: Point, c: Point, d: Point, n: nat | c.x >= 0 && c.y >= 0 && n > 0
      ensures CatmullAt(a, b, c, d, n, n) == c
    {
      assert n as real / n as real == 1.0;
      CatmullEnds(a.x, b.x, c.x, d.x);
      CatmullEnds(a.y, b.y, c.y, d.y);
    }
  }

  /** Where the curve reaches raw point n. */
  function Knot(at: Blend, interp: Interp, raw: seq<Point>, n: nat): (k: nat)
    requires n < |raw|
    ensures k < |CurveTo(at, interp, raw, n)|
  {
    |CurveTo(at, interp, raw, n)| - 1
  }

  /** A curve is extended, never changed. */
  lemma {:induction false} CurveExtends(at: Blend, interp: Interp, raw: seq<Point>, n: nat, m: nat)
    requires n <= m < |raw|
    ensures CurveTo(at, interp, raw, n) <= CurveTo(at, interp, raw, m)
  {
    if n < m {
      CurveExtends(at, interp, raw, n, m - 1);
    }
  }

  /** Later segments leave the point at a knot where it is. */
  lemma {:induction false} KnotStays(at: Blend, interp: Interp, raw: seq<Point>, n: nat, m: nat)
    requires n <= m < |raw|
    ensures
      var k := Knot(at, interp, raw, n);
      k < |CurveTo(at, interp, raw, m)| && CurveTo(at, interp, raw, m)[k] == CurveTo(at, interp, raw, n)[k]
  {
    CurveExtends(at, interp, raw, n, m);
  }

  lemma {:induction false} PieceEnds(at: Blend, interp: Interp, raw: seq<Point>, i: nat)
    requires EndsOnPoint(at) && i + 1 < |raw| && raw[i + 1].x >= 0 && raw[i + 1].y >= 0
    ensures
      var ps := Piece(at, interp, raw, i);
      ps[|ps| - 1] == raw[i + 1]
  {
    if interp == Smooth {
      var n := Subdiv(raw[i], raw[i + 1]);
      assert Segment(at, raw, i, n)[n - 1] == CurvePoint(at, raw, i, n, n);
    }
  }

  lemma {:induction false} CurveEnds(at: Blend, interp: Interp, raw: seq<Point>, n: nat)
    requires EndsOnPoint(at) && n < |raw| && raw[n].x >= 0 && raw[n].y >= 0
    ensures CurveTo(at, interp, raw, n)[Knot(at, interp, raw, n)] == raw[n]
  {
    if n > 0 {
      PieceEnds(at, interp, raw, n - 1);
    }
  }

  lemma {:induction false} CurveHits(at: Blend, interp: Interp, raw: seq<Point>, n: nat)
    requires EndsOnPoint(at) && n < |raw| && raw[n].x >= 0 && raw[n].y >= 0
    ensures
      var k := Knot(at, interp, raw, n);
      k < |Curve(at, interp, raw)| && Curve(at, interp, raw)[k] == raw[n]
  {
    KnotStays(at, interp, raw, n, |raw| - 1);
    CurveEnds(at, interp, raw, n);
  }

  /** On the canvas (no negative pixel) the curve passes through every raw point, in order. */
  lemma {:induction false} CurveHitsEveryPoint(interp: Interp, raw: seq<Point>, n: nat)
    requires n < |raw| && raw[n].x >= 0 && raw[n].y >= 0
    ensures
      var k := Knot(CatmullAt, interp, raw, n);
      k < |Curve(CatmullAt, interp, raw)| && Curve(CatmullAt, interp, raw)[k] == raw[n]
  {
    CatmullEndsOnPoint();
    CurveHits(CatmullAt, interp, raw, n);
  }

  lemma {:induction false} StepsTo(at: Blend, interp: Interp, raw: seq<Point>, n: nat, i: nat)
    requires interp != Smooth && i < n < |raw|
    ensures
      var ps := CurveTo(at, interp, raw, n);
      && |ps| == 2 * n + 1 && ps[2 * i] == raw[i] && ps[2 * i + 2] == raw[i + 1]
      && ps[2 * i + 1] == if interp == StepAfter then Point(raw[i + 1].x, raw[i].y) else Point(raw[i].x, raw[i + 1].y)
  {
    var before := CurveTo(at, interp, raw, n - 1);
    if n > 1 {
      StepsTo(at, interp, raw, n - 1, if i < n - 1 then i else i - 1);
    }
    assert CurveTo(at, interp, raw, n) == before + Piece(at, interp, raw, n - 1);
  }

  /**
    A stepped curve goes from point to point by a corner. STEP_AFTER keeps the row of a
    point until the column of the next one, STEP_BEFORE goes to the next row at once.
  */
  lemma {:induction false} StepCorners(interp: Interp, raw: seq<Point>, i: nat)
    requires interp != Smooth && i + 1 < |raw|
    ensures
      var ps := Curve(CatmullAt, interp, raw);
      && |ps| == 2 * |raw| - 1 && ps[2 * i] == raw[i] && ps[2 * i + 2] == raw[i + 1]
      && (interp == StepAfter ==> ps[2 * i + 1].y == raw[i].y && ps[2 * i + 1].x == raw[i + 1].x)
      && (interp == StepBefore ==> ps[2 * i + 1].y == raw[i + 1].y && ps[2 * i + 1].x == raw[i].x)
  {
    StepsTo(CatmullAt, interp, raw, |raw| - 1, i);
  }

  // ---------------------------------------------------------------- the loops

  /** out[m++] for the points of one smooth segment. */
  method SmoothSegment(at: Blend, raw: seq<Point>, i: nat, out: array<Point>, m0: nat) returns (m: nat)
    requires i + 1 < |raw| && m0 + MAX_SUBDIV <= out.Length
    modifies out
    ensures m == m0 + |Piece(at, Smooth, raw, i)|
    ensures out[..m] == old(out[..m0]) + Piece(at, Smooth, raw, i)
  {
    var p, q := raw[i], raw[i + 1];
    var dx, dy := q.x - p.x, q.y - p.y;
    if dx < 0 { dx := -dx; }
    if dy < 0 { dy := -dy; }
    var subdiv := (dx + dy) / 4;
    if subdiv < 2 { subdiv := 2; }
    if subdiv > 20 { subdiv := 20; }
    assert subdiv == Subdiv(p, q);
    m := m0;
    var k := 1;
    while k <= subdiv && m < out.Length
      invariant 1 <= k <= subdiv + 1 && m == m0 + k - 1
      invariant out[..m] == old(out[..m0]) + Segment(at, raw, i, k - 1)
    {
      out[m] := CurvePoint(at, raw, i, k, subdiv);
      assert out[..m + 1] == out[..m] + [out[m]];
      assert Segment(at, raw, i, k) == Segment(at, raw, i, k - 1) + [out[m]];
      m, k := m + 1, k + 1;
    }
  }

  /** The stepped branch: a corner and the next point per segment. */
  method DensifySteps(at: Blend, interp: Interp, raw: seq<Point>, out: array<Point>) returns (m: nat)
    requires |raw| > 0 && interp != Smooth && out.Length >= |raw| * 21 + 8 && out[0] == raw[0]
    modifies out
    ensures m == |Curve(at, interp, raw)| && out[..m] == Curve(at, interp, raw)
  {
    m := 1;
    var i := 1;
    assert out[..1] == [raw[0]];
    while i < |raw| && m + 2 <= out.Length
      invariant 1 <= i <= |raw| && m == |CurveTo(at, interp, raw, i - 1)| == 2 * i - 1
      invariant out[..m] == CurveTo(at, interp, raw, i - 1)
    {
      var corner := if interp == StepAfter then Point(raw[i].x, raw[i - 1].y) else Point(raw[i - 1].x, raw[i].y);
      out[m] := corner;
      out[m + 1] := raw[i];
      assert Piece(at, interp, raw, i - 1) == [corner, raw[i]];
      assert out[..m + 2] == out[..m] + [corner, raw[i]];
      m, i := m + 2, i + 1;
    }
  }

  /** The curve so far, extended by one segment. */
  method ExtendSmooth(at: Blend, raw: seq<Point>, i: nat, out: array<Point>, m0: nat) returns (m: nat)
    requires i + 1 < |raw| && m0 + MAX_SUBDIV <= out.Length
    requires m0 == |CurveTo(at, Smooth, raw, i)| && out[..m0] == CurveTo(at, Smooth, raw, i)
    modifies out
    ensures m0 < m <= m0 + MAX_SUBDIV
    ensures m == |CurveTo(at, Smooth, raw, i + 1)| && out[..m] == CurveTo(at, Smooth, raw, i + 1)
  {
    m := SmoothSegment(at, raw, i, out, m0);
  }

  /** The smooth branch. */
  method DensifySmooth(at: Blend, raw: seq<Point>, out: array<Point>) returns (m: nat)
    requires |raw| > 0 && out.Length >= |raw| * 21 + 8 && out[0] == raw[0]
    modifies out
    ensures m == |Curve(at, Smooth, raw)| && out[..m] == Curve(at, Smooth, raw)
  {
    m := 1;
    var i := 0;
    while i < |raw| - 1 && m < out.Length
      invariant 0 <= i <= |raw| - 1 && m == |CurveTo(at, Smooth, raw, i)| <= 1 + 20 * i
      invariant out[..m] == CurveTo(at, Smooth, raw, i)
    {
      m := ExtendSmooth(at, raw, i, out, m);
      i := i + 1;
    }
  }

  /** area_densify with the capacity its callers give it: nothing is cut off. */
  method Densify(at: Blend, interp: Interp, raw: seq<Point>, out: array<Point>) returns (m: nat)
    requires out.Length >= |raw| * 21 + 8
    modifies out
    ensures m == |Curve(at, interp, raw)| && out[..m] == Curve(at, interp, raw)
  {
    if |raw| == 0 {
      return 0;
    }
    out[0] := raw[0];
    if interp == StepAfter || interp == StepBefore {
      m := DensifySteps(at, interp, raw, out);
    } else {
      m := DensifySmooth(at, raw, out);
    }
  }

  // ---------------------------------------------------------------- where the curve goes

  /** Between two pixel rows, y growing downwards. */
  ghost predicate Within(ps: seq<Point>, top: int, bottom: int) {
    forall j :: 0 <= j < |ps| ==> top <= ps[j].y <= bottom
  }

  ghost predicate SegmentWithin(at: Blend, raw: seq<Point>, i: nat, top: int, bottom: int)
    requires i + 1 < |raw|
  {
    var n := Subdiv(raw[i], raw[i + 1]);
    forall k :: 1 <= k <= n ==> top <= CurvePoint(at, raw, i, k, n).y <= bottom
  }

  lemma {:induction false} SegmentStays(at: Blend, raw: seq<Point>, i: nat, top: int, bottom: int)
    requires i + 1 < |raw| && SegmentWithin(at, raw, i, top, bottom)
    ensures Within(Piece(at, Smooth, raw, i), top, bottom)
  {
  }

  lemma {:induction false} StepStays(at: Blend, interp: Interp, raw: seq<Point>, i: nat, top: int, bottom: int)
    requires i + 1 < |raw| && interp != Smooth && Within(raw, top, bottom)
    ensures Within(Piece(at, interp, raw, i), top, bottom)
  {
  }

  lemma {:induction false} ConcatStays(a: seq<Point>, b: seq<Point>, top: int, bottom: int)
    requires Within(a, top, bottom) && Within(b, top, bottom)
    ensures Within(a + b, top, bottom)
  {
  }

  /** A curve stays where its raw points and, if smooth, its segments are. */
  lemma {:induction false} CurveStays(at: Blend, interp: Interp, raw: seq<Point>, n: nat, top: int, bottom: int)
    requires n < |raw| && Within(raw, top, bottom)
    requires interp == Smooth ==> forall i: nat :: i < n ==> SegmentWithin(at, raw, i, top, bottom)
    ensures Within(CurveTo(at, interp, raw, n), top, bottom)
  {
    if n > 0 {
      CurveStays(at, interp, raw, n - 1, top, bottom);
      if interp == Smooth {
        SegmentStays(at, raw, n - 1, top, bottom);
      } else {
        StepStays(at, interp, raw, n - 1, top, bottom);
      }
      ConcatStays(CurveTo(at, interp, raw, n - 1), Piece(at, interp, raw, n - 1), top, bottom);
    }
  }

  /** A stepped curve never leaves the rows of its raw points. */
  lemma {:induction false} StepsStayWithin(interp: Interp, raw: seq<Point>, top: int, bottom: int)
    requires interp != Smooth && Within(raw, top, bottom)
    ensures Within(Curve(CatmullAt, interp, raw), top, bottom)
  {
    if raw != [] {
      CurveStays(CatmullAt, interp, raw, |raw| - 1, top, bottom);
    }
  }

  lemma {:induction false} InLonger(x: Point, a: seq<Point>, b: seq<Point>)
    requires x in a || x in b
    ensures x in a + b
  {
  }

  lemma {:induction false} PieceIsAdded(at: Blend, interp: Interp, raw: seq<Point>, i: nat, x: Point)
    requires i + 1 < |raw| && x in Piece(at, interp, raw, i)
    ensures x in CurveTo(at, interp, raw, i + 1)
  {
    InLonger(x, CurveTo(at, interp, raw, i), Piece(at, interp, raw, i));
  }

  /** Every point of every segment is drawn. */
  lemma {:induction false} PieceIsDrawn(at: Blend, interp: Interp, raw: seq<Point>, i: nat, n: nat, x: Point)
    requires i < n < |raw| && x in Piece(at, interp, raw, i)
    ensures x in CurveTo(at, interp, raw, n)
  {
    if i == n - 1 {
      PieceIsAdded(at, interp, raw, i, x);
    } else {
      PieceIsDrawn(at, interp, raw, i, n - 1, x);
      StaysDrawn(at, interp, raw, n - 1, x);
    }
  }

  lemma {:induction false} StaysDrawn(at: Blend, interp: Interp, raw: seq<Point>, i: nat, x: Point)
    requires i + 1 < |raw| && x in CurveTo(at, interp, raw, i)
    ensures x in CurveTo(at, interp, raw, i + 1)
  {
    InLonger(x, CurveTo(at, interp, raw, i), Piece(at, interp, raw, i));
  }

  // ---------------------------------------------------------------- how far a smooth curve overshoots

  lemma {:induction false} RoundAtMost(y: real, m: int)
    requires y + 0.5 < m as real + 1.0 && m >= 0
    ensures Truncate(y + 0.5) <= m
  {
  }

  lemma {:induction false} RoundAtLeast(y: real, m: int)
    requires y + 0.5 >= m as real
    ensures Truncate(y + 0.5) >= m
  {
  }

  /** What rounding makes of an eighth of an extent, upwards and downwards. */
  function Above(extent: nat): (n: nat) { (extent + 4) / 8 }

  function Below(extent: nat): (n: nat) { (extent + 3) / 8 }

  predicate Between(lo: int, v: int, hi: int) { lo <= v <= hi }

  /** However the control values lie in an extent, a point leaves it by an eighth at most. */
  lemma {:induction false} CatmullOvershoot(p0: int, p1: int, p2: int, p3: int, t: real, lo: int, hi: int)
    requires 0.0 <= t <= 1.0 && 0 <= lo <= hi
    requires Between(lo, p0, hi) && Between(lo, p1, hi) && Between(lo, p2, hi) && Between(lo, p3, hi)
    ensures lo - Below(hi - lo) <= Catmull(p0, p1, p2, p3, t) <= hi + Above(hi - lo)
  {
    R.SegmentWithin(p0 as real, p1 as real, p2 as real, p3 as real, t, lo as real, hi as real);
    var y, extent := R.Segment(p0 as real, p1 as real, p2 as real, p3 as real, t), hi - lo;
    assert 8.0 * (Above(extent) as real) > extent as real - 4.0;
    assert 8.0 * (Below(extent) as real) >= extent as real - 4.0;
    RoundAtMost(y, hi + Above(extent));
    RoundAtLeast(y, lo - Below(extent));
  }

  /** The bound is met: both outer values at one end, both inner ones at the other, halfway. */
  lemma {:induction false} OvershootIsMet(lo: int, hi: int)
    requires 0 <= lo <= hi
    ensures Catmull(lo, hi, hi, lo, 0.5) == hi + Above(hi - lo)
    ensures lo >= Below(hi - lo) ==> Catmull(hi, lo, lo, hi, 0.5) == lo - Below(hi - lo)
  {
    var a, b := lo as real, hi as real;
    assert R.Segment(a, b, b, a, 0.5) == b + (b - a) / 8.0;
    assert R.Segment(b, a, a, b, 0.5) == a - (b - a) / 8.0;
  }

  lemma {:induction false} Fraction(k: nat, n: nat)
    requires 1 <= k <= n
    ensures 0.0 <= k as real / n as real <= 1.0
  {
  }

  lemma {:induction false} SegmentOvershoot(raw: seq<Point>, i: nat, top: int, bottom: int)
    requires i + 1 < |raw| && 0 <= top <= bottom && Within(raw, top, bottom)
    ensures SegmentWithin(CatmullAt, raw, i, top - Below(bottom - top), bottom + Above(bottom - top))
  {
    var n := Subdiv(raw[i], raw[i + 1]);
    forall k | 1 <= k <= n
      ensures top - Below(bottom - top) <= CurvePoint(CatmullAt, raw, i, k, n).y <= bottom + Above(bottom - top)
    {
      Fraction(k, n);
      CatmullOvershoot(Earlier(raw, i).y, raw[i].y, raw[i + 1].y, Later(raw, i).y, k as real / n as real, top, bottom);
    }
  }

  /** A smooth curve leaves the rows of its raw points by at most an eighth of their extent. */
  lemma {:induction false} SmoothOvershoot(raw: seq<Point>, top: int, bottom: int)
    requires 0 <= top <= bottom && Within(raw, top, bottom)
    ensures Within(Curve(CatmullAt, Smooth, raw), top - Below(bottom - top), bottom + Above(bottom - top))
  {
    if raw != [] {
      var first, last := top - Below(bottom - top), bottom + Above(bottom - top);
      forall i: nat | i < |raw| - 1 ensures SegmentWithin(CatmullAt, raw, i, first, last) {
        SegmentOvershoot(raw, i, top, bottom);
      }
      CurveStays(CatmullAt, Smooth, raw, |raw| - 1, first, last);
    }
  }

  /** Two points at the bottom row between two at the top row, close together. */
  function Dip(top: int, bottom: int): (raw: seq<Point>) {
    [Point(0, top), Point(8, bottom), Point(16, bottom), Point(24, top)]
  }

  lemma {:induction false} MiddleOfDip(at: Blend, top: int, bottom: int)
    ensures CurvePoint(at, Dip(top, bottom), 1, 1, 2) in Curve(at, Smooth, Dip(top, bottom))
  {
    var raw := Dip(top, bottom);
    assert Subdiv(raw[1], raw[2]) == 2;
    var piece := Piece(at, Smooth, raw, 1);
    assert piece[0] == CurvePoint(at, raw, 1, 1, 2);
    PieceIsDrawn(at, Smooth, raw, 1, 3, piece[0]);
  }

  lemma {:induction false} DipRow(top: int, bottom: int)
    requires 0 <= top <= bottom
    ensures CurvePoint(CatmullAt, Dip(top, bottom), 1, 1, 2) == Point(12, bottom + Above(bottom - top))
  {
    OvershootIsMet(top, bottom);
    assert 1 as real / 2 as real == 0.5;
    assert R.Segment(0.0, 8.0, 16.0, 24.0, 0.5) == 12.0;
  }

  lemma {:induction false} DipOvershoots(top: int, bottom: int)
    requires 0 <= top <= bottom
    ensures Within(Dip(top, bottom), top, bottom)
    ensures Point(12, bottom + Above(bottom - top)) in Curve(CatmullAt, Smooth, Dip(top, bottom))
  {
    DipRow(top, bottom);
    MiddleOfDip(CatmullAt, top, bottom);
  }

  /**
    The exact condition on the extent: smooth curves through points between two rows all
    stay between them if and only if the rows are less than four pixels apart.
  */
  lemma {:induction false} SmoothInsideExactly(top: int, bottom: int)
    requires 0 <= top <= bottom
    ensures
      (forall raw :: Within(raw, top, bottom) ==> Within(Curve(CatmullAt, Smooth, raw), top, bottom))
      <==> bottom - top < 4
  {
    if bottom - top < 4 {
      forall raw | Within(raw, top, bottom) ensures Within(Curve(CatmullAt, Smooth, raw), top, bottom) {
        SmoothOvershoot(raw, top, bottom);
      }
    } else {
      DipOvershoots(top, bottom);
      var raw := Dip(top, bottom);
      var j :| 0 <= j < |Curve(CatmullAt, Smooth, raw)|
               && Curve(CatmullAt, Smooth, raw)[j] == Point(12, bottom + Above(bottom - top));
      assert !Within(Curve(CatmullAt, Smooth, raw), top, bottom);
    }
  }

  // ---------------------------------------------------------------- calm segments

  /** The condition on the four control points of a segment, see CatmullRom.BetweenExactly. */
  predicate CalmSegment(raw: seq<Point>, i: nat)
    requires i + 1 < |raw|
  {
    R.Calm(Earlier(raw, i).y as real, raw[i].y as real, raw[i + 1].y as real, Later(raw, i).y as real)
  }

  lemma {:induction false} RoundBetween(y: real, p: int, q: int)
    requires p >= 0 && q >= 0 && (p as real <= y <= q as real || q as real <= y <= p as real)
    ensures Between(p, Truncate(y + 0.5), q) || Between(q, Truncate(y + 0.5), p)
  {
    var lo, hi := if p <= q then p else q, if p <= q then q else p;
    RoundAtLeast(y, lo);
    RoundAtMost(y, hi);
  }

  lemma {:induction false} CalmSegmentStays(raw: seq<Point>, i: nat, top: int, bottom: int)
    requires i + 1 < |raw| && 0 <= top <= bottom && Within(raw, top, bottom) && CalmSegment(raw, i)
    ensures SegmentWithin(CatmullAt, raw, i, top, bottom)
  {
    var n := Subdiv(raw[i], raw[i + 1]);
    var p, q, r, s := Earlier(raw, i).y as real, raw[i].y as real, raw[i + 1].y as real, Later(raw, i).y as real;
    R.BetweenExactly(p, q, r, s);
    forall k | 1 <= k <= n ensures top <= CurvePoint(CatmullAt, raw, i, k, n).y <= bottom {
      Fraction(k, n);
      RoundBetween(R.Segment(p, q, r, s, k as real / n as real), raw[i].y, raw[i + 1].y);
    }
  }

  /** A smooth curve all of whose segments are calm stays within the rows of its raw points. */
  lemma {:induction false} CalmCurveStays(raw: seq<Point>, top: int, bottom: int)
    requires 0 <= top <= bottom && Within(raw, top, bottom)
    requires AllCalm(raw)
    ensures Within(Curve(CatmullAt, Smooth, raw), top, bottom)
  {
    if raw != [] {
      forall i: nat | i < |raw| - 1 ensures SegmentWithin(CatmullAt, raw, i, top, bottom) {
        CalmSegmentStays(raw, i, top, bottom);
      }
      CurveStays(CatmullAt, Smooth, raw, |raw| - 1, top, bottom);
    }
  }

  predicate AllCalm(raw: seq<Point>) {
    forall i: nat :: i + 1 < |raw| ==> CalmSegment(raw, i)
  }

  /** What makes a drawn curve of raw points. */
  type Shape = seq<Point> -> seq<Point>

  function ShapeOf(at: Blend, interp: Interp): (shape: Shape) { raw => Curve(at, interp, raw) }

  /**
    What curves keep to: one whose raw points are between two rows stays there if it is
    stepped or all its segments are calm, and never leaves them by more than an eighth.
  */
  ghost predicate Tame(shape: Shape, stepped: bool) {
    forall raw: seq<Point>, top: int, bottom: int ::
      0 <= top <= bottom && Within(raw, top, bottom) ==>
        && (stepped || AllCalm(raw) ==> Within(shape(raw), top, bottom))
        && Within(shape(raw), top - Below(bottom - top), bottom + Above(bottom - top))
  }

  lemma {:induction false} CurvesAreTame(interp: Interp)
    ensures Tame(ShapeOf(CatmullAt, interp), interp != Smooth)
  {
    var shape := ShapeOf(CatmullAt, interp);
    forall raw: seq<Point>, top: int, bottom: int | 0 <= top <= bottom && Within(raw, top, bottom)
      ensures interp != Smooth || AllCalm(raw) ==> Within(shape(raw), top, bottom)
      ensures Within(shape(raw), top - Below(bottom - top), bottom + Above(bottom - top))
    {
      if interp != Smooth {
        StepsStayWithin(interp, raw, top, bottom);
      } else {
        SmoothOvershoot(raw, top, bottom);
        if AllCalm(raw) {
          CalmCurveStays(raw, top, bottom);
        }
      }
    }
  }

  // ---------------------------------------------------------------- the polygon

  const MAX_POINTS: nat := 2048

  function Backwards(ps: seq<Point>): (r: seq<Point>)
    ensures |r| == |ps|
    ensures forall i :: 0 <= i < |ps| ==> r[i] == ps[|ps| - 1 - i]
  {
    if ps == [] then [] else [ps[|ps| - 1]] + Backwards(ps[..|ps| - 1])
  }

  /**
    The linear polygon: both loops stop at the fixed sizes of the point array, which
    leaves the outline whole exactly for the series lengths that setSeries accepts.
  */
  method Polygon(top: seq<Point>, bottom: seq<Point>) returns (poly: seq<Point>)
    requires |top| == |bottom|
    ensures |poly| <= 2 * MAX_POINTS
    ensures poly == top + Backwards(bottom) <==> |top| <= MAX_POINTS
  {
    var n := |top|;
    poly := [];
    var i := 0;
    while i < n && |poly| < MAX_POINTS
      invariant 0 <= i <= n && i <= MAX_POINTS && poly == top[..i]
    {
      poly := poly + [top[i]];
      i := i + 1;
    }
    ghost var first := i;
    var j := n - 1;
    while j >= 0 && |poly| < 2 * MAX_POINTS
      invariant -1 <= j < n && first == if n <= MAX_POINTS then n else MAX_POINTS
      invariant |poly| == first + (n - 1 - j) <= 2 * MAX_POINTS
      invariant forall k :: 0 <= k < first ==> poly[k] == top[k]
      invariant forall k :: first <= k < |poly| ==> poly[k] == bottom[n - 1 - (k - first)]
    {
      poly := poly + [bottom[j]];
      j := j - 1;
    }
    if n <= MAX_POINTS {
      assert poly == top + Backwards(bottom);
    }
  }
}
