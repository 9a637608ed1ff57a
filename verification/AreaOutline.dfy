/**
  The curved branch of the stacked draw loop: both boundaries of a layer are mapped to
  pixels, densified, and joined to the outline that is filled. Here is where the drawn
  curves lie, and how the layers fit together on the canvas.

  The mapping to pixels enters only through one property, that greater values are never
  drawn lower, which the linear axes have; the way of drawing a curve only through
  another, that it keeps to the rows of its points up to an eighth of their distance.
*/
module AreaOutline {
  import opened Common
  import opened ChartRange
  import opened AreaCurve
  import A = AreaStack
  import R = CatmullRom

  /** The plot rectangle's rows, the columns of the categories, and the row of a value on each axis. */
  datatype Plot = Plot(y0: int, y1: int, centre: nat -> int, left: real -> int, right: real -> int)

  /** Greater values are drawn higher up, and nothing outside the plot. */
  ghost predicate Falls(row: real -> int, y0: int, y1: int) {
    forall v, w :: v <= w ==> y0 <= row(w) <= row(v) <= y1
  }

  ghost predicate ValidPlot(p: Plot) {
    0 <= p.y0 <= p.y1 && Falls(p.left, p.y0, p.y1) && Falls(p.right, p.y0, p.y1)
  }

  // ---------------------------------------------------------------- values to pixels

  function Clamp(f: real): (g: real)
    ensures 0.0 <= g <= 1.0
  {
    if f < 0.0 then 0.0 else if f > 1.0 then 1.0 else f
  }

  /** How far up the axis a value is, and how many rows that is. */
  function Share(v: real, r: Range): (f: real)
    requires r.lo < r.hi
    ensures 0.0 <= f <= 1.0
  {
    Clamp((v - r.lo) / (r.hi - r.lo))
  }

  function Lift(f: real, rows: nat): (n: int) { Truncate(f * rows as real + 0.5) }

  /** fastchart_y_to_pixel on a linear axis. */
  function Row(v: real, r: Range, y0: int, y1: int): (y: int)
    requires r.lo < r.hi && y0 <= y1
  {
    y1 - Lift(Share(v, r), y1 - y0)
  }

  lemma {:induction false} FractionsRise(v: real, w: real, lo: real, hi: real)
    requires lo < hi && v <= w
    ensures (v - lo) / (hi - lo) <= (w - lo) / (hi - lo)
  {
  }

  lemma {:induction false} SharesRise(v: real, w: real, r: Range)
    requires r.lo < r.hi && v <= w
    ensures Share(v, r) <= Share(w, r)
  {
    FractionsRise(v, w, r.lo, r.hi);
  }

  lemma {:induction false} Scales(f: real, g: real, h: real, fh: real, gh: real)
    requires 0.0 <= f <= g <= 1.0 && h >= 0.0 && fh == f * h && gh == g * h
    ensures 0.0 <= fh <= gh <= h
  {
    R.Times(f, g, h);
    R.Times(g, 1.0, h);
    R.ProductNonNegative(f, h);
  }

  lemma {:induction false} TruncatesInOrder(x: real, y: real, rows: nat)
    requires 0.0 <= x <= y <= rows as real
    ensures 0 <= Truncate(x + 0.5) <= Truncate(y + 0.5) <= rows
  {
  }

  lemma {:induction false} LiftsRise(f: real, g: real, rows: nat)
    requires 0.0 <= f <= g <= 1.0
    ensures 0 <= Lift(f, rows) <= Lift(g, rows) <= rows
  {
    var h := rows as real;
    var fh, gh := f * h, g * h;
    Scales(f, g, h, fh, gh);
    TruncatesInOrder(fh, gh, rows);
  }

  lemma {:induction false} RowsFall(v: real, w: real, r: Range, y0: int, y1: int)
    requires r.lo < r.hi && y0 <= y1 && v <= w
    ensures y0 <= Row(w, r, y0, y1) <= Row(v, r, y0, y1) <= y1
  {
    SharesRise(v, w, r);
    LiftsRise(Share(v, r), Share(w, r), y1 - y0);
  }

  lemma {:induction false} LiftIsNearest(f: real, rows: nat)
    requires 0.0 <= f <= 1.0
    ensures
      var n := Lift(f, rows) as real;
      n - 0.5 <= f * rows as real < n + 0.5
  {
    R.ProductNonNegative(f, rows as real);
    NearestOf(f * rows as real);
  }

  lemma {:induction false} NearestOf(x: real)
    requires x >= 0.0
    ensures Truncate(x + 0.5) as real - 0.5 <= x < Truncate(x + 0.5) as real + 0.5
  {
  }

  /** A value that the axis shows is drawn at the row nearest to its place on the axis. */
  lemma {:induction false} RowIsNearest(v: real, r: Range, y0: int, y1: int)
    requires r.lo < r.hi && y0 <= y1 && Inside(v, r)
    ensures
      var up := (y1 - Row(v, r, y0, y1)) as real;
      up - 0.5 <= (v - r.lo) / (r.hi - r.lo) * (y1 - y0) as real < up + 0.5
  {
    FractionsRise(r.lo, v, r.lo, r.hi);
    FractionsRise(v, r.hi, r.lo, r.hi);
    Quotients(r.hi - r.lo);
    ShownShare(v, r);
    LiftIsNearest(Share(v, r), y1 - y0);
  }

  lemma {:induction false} ShownShare(v: real, r: Range)
    requires r.lo < r.hi && 0.0 <= (v - r.lo) / (r.hi - r.lo) <= 1.0
    ensures Share(v, r) == (v - r.lo) / (r.hi - r.lo)
  {
  }

  /** The plot of two linear axes. */
  function LinearPlot(y0: int, y1: int, centre: nat -> int, left: Range, right: Range): (p: Plot)
    requires 0 <= y0 <= y1 && left.lo < left.hi && right.lo < right.hi
  {
    Plot(y0, y1, centre, v => Row(v, left, y0, y1), v => Row(v, right, y0, y1))
  }

  lemma {:induction false} LinearPlotIsValid(y0: int, y1: int, centre: nat -> int, left: Range, right: Range)
    requires 0 <= y0 <= y1 && left.lo < left.hi && right.lo < right.hi
    ensures ValidPlot(LinearPlot(y0, y1, centre, left, right))
  {
    forall v: real, w: real | v <= w
      ensures y0 <= Row(w, left, y0, y1) <= Row(v, left, y0, y1) <= y1
      ensures y0 <= Row(w, right, y0, y1) <= Row(v, right, y0, y1) <= y1
    {
      RowsFall(v, w, left, y0, y1);
      RowsFall(v, w, right, y0, y1);
    }
  }

  function RowOf(p: Plot, right: bool, v: real): (y: int) { if right then p.right(v) else p.left(v) }

  lemma {:induction false} RowsOfFall(p: Plot, right: bool, v: real, w: real)
    requires ValidPlot(p) && v <= w
    ensures p.y0 <= RowOf(p, right, w) <= RowOf(p, right, v) <= p.y1
  {
  }

  function Boundary(values: seq<real>, p: Plot, right: bool): (ps: seq<Point>)
    ensures |ps| == |values|
    ensures forall i :: 0 <= i < |values| ==> ps[i] == Point(p.centre(i), RowOf(p, right, values[i]))
  {
    seq(|values|, i requires 0 <= i < |values| => Point(p.centre(i), RowOf(p, right, values[i])))
  }

  // ---------------------------------------------------------------- the draw loop

  /** The two boundary curves of a layer as drawn, and the polygon that is filled. */
  datatype Outline = Outline(right: bool, top: seq<Point>, bottom: seq<Point>, fill: seq<Point>)

  /** The value boundaries below layer s; the top of layer s is the boundary below s + 1 on its axis. */
  function Heights(c: A.Chart, right: bool, s: nat): (hs: seq<real>)
    requires s <= |c.series|
    ensures |hs| == c.maxLen
    ensures forall i :: 0 <= i < c.maxLen ==> hs[i] == A.Height(c, right, s, i)
  {
    seq(c.maxLen, i requires 0 <= i < c.maxLen => A.Height(c, right, s, i))
  }

  /** The curve that is drawn for the stack of an axis below series s. */
  function Drawn(shape: Shape, c: A.Chart, p: Plot, right: bool, s: nat): (ps: seq<Point>)
    requires s <= |c.series|
  {
    shape(Boundary(Heights(c, right, s), p, right))
  }

  ghost predicate IsOutline(shape: Shape, c: A.Chart, p: Plot, s: nat, o: Outline)
    requires s < |c.series|
  {
    && o.right == A.OnRight(c, s)
    && o.bottom == Drawn(shape, c, p, o.right, s)
    && o.top == Drawn(shape, c, p, o.right, s + 1)
    && IsFilled(o)
  }

  ghost predicate IsFilled(o: Outline) {
    o.fill == if |o.top| >= 2 && |o.bottom| >= 2 then o.top + Backwards(o.bottom) else []
  }

  /** area_densify into a buffer of the callers' size. */
  method DensifyAll(at: Blend, interp: Interp, raw: seq<Point>) returns (ps: seq<Point>)
    ensures ps == Curve(at, interp, raw)
  {
    var out := new Point[|raw| * 21 + 8](_ => Point(0, 0));
    var m := Densify(at, interp, raw, out);
    ps := out[..m];
  }

  /** fp[fn++]: the top from left to right, the bottom from right to left. */
  method Join(top: seq<Point>, bottom: seq<Point>) returns (fill: seq<Point>)
    ensures fill == if |top| >= 2 && |bottom| >= 2 then top + Backwards(bottom) else []
  {
    fill := [];
    if |top| >= 2 && |bottom| >= 2 {
      for i := 0 to |top|
        invariant fill == top[..i]
      {
        fill := fill + [top[i]];
      }
      for i := |bottom| downto 0
        invariant |fill| == |top| + (|bottom| - i)
        invariant forall j :: 0 <= j < |top| ==> fill[j] == top[j]
        invariant forall j :: |top| <= j < |fill| ==> fill[j] == bottom[|bottom| - 1 - (j - |top|)]
      {
        fill := fill + [bottom[i]];
      }
      assert fill == top + Backwards(bottom);
    }
  }

  /** One layer: raw points from the running sums, both curves, the polygon. */
  method DrawCurved(at: Blend, c: A.Chart, interp: Interp, p: Plot, s: nat, layer: A.Layer) returns (o: Outline)
    requires !c.stream && s < |c.series| && A.IsLayer(c, s, layer)
    ensures IsOutline(ShapeOf(at, interp), c, p, s, o)
  {
    assert layer.top == Heights(c, layer.right, s + 1) && layer.bottom == Heights(c, layer.right, s);
    var top := DensifyAll(at, interp, Boundary(layer.top, p, layer.right));
    var bottom := DensifyAll(at, interp, Boundary(layer.bottom, p, layer.right));
    var fill := Join(top, bottom);
    o := Outline(layer.right, top, bottom, fill);
  }

  /** The curved draw loop over the layers of the running sums; streams are never curved. */
  method DrawCurvedLayers(at: Blend, c: A.Chart, interp: Interp, p: Plot) returns (outlines: seq<Outline>)
    requires !c.stream
    ensures |outlines| == |c.series|
    ensures forall s :: 0 <= s < |outlines| ==> IsOutline(ShapeOf(at, interp), c, p, s, outlines[s])
  {
    var layers := A.DrawLayers(c);
    outlines := [];
    for s := 0 to |layers|
      invariant |outlines| == s && forall t :: 0 <= t < s ==> IsOutline(ShapeOf(at, interp), c, p, t, outlines[t])
    {
      var o := DrawCurved(at, c, interp, p, s, layers[s]);
      outlines := outlines + [o];
    }
  }

  // ---------------------------------------------------------------- inside the range

  /** The rows between which the range of an axis is shown. */
  function TopRow(c: A.Chart, p: Plot, right: bool): (y: int) { RowOf(p, right, A.AxisRange(c, right).hi) }

  function BottomRow(c: A.Chart, p: Plot, right: bool): (y: int) { RowOf(p, right, A.AxisRange(c, right).lo) }

  /** The raw points of every boundary lie between the rows of the scanned range. */
  lemma {:induction false} RawPointsInside(c: A.Chart, p: Plot, right: bool, s: nat)
    requires !c.stream && ValidPlot(p) && s <= |c.series| && c.maxLen > 0
    ensures p.y0 <= TopRow(c, p, right) <= BottomRow(c, p, right) <= p.y1
    ensures Within(Boundary(Heights(c, right, s), p, right), TopRow(c, p, right), BottomRow(c, p, right))
  {
    var r := A.AxisRange(c, right);
    A.BoundaryInside(c, right, s, 0);
    RowsOfFall(p, right, r.lo, r.hi);
    var ps := Boundary(Heights(c, right, s), p, right);
    forall j | 0 <= j < |ps| ensures TopRow(c, p, right) <= ps[j].y <= BottomRow(c, p, right) {
      A.BoundaryInside(c, right, s, j);
      RowsOfFall(p, right, r.lo, A.Height(c, right, s, j));
      RowsOfFall(p, right, A.Height(c, right, s, j), r.hi);
    }
  }

  /** Between the rows of the range, or at most an eighth of their distance outside. */
  ghost predicate InsideRows(c: A.Chart, p: Plot, right: bool, ps: seq<Point>) {
    Within(ps, TopRow(c, p, right), BottomRow(c, p, right))
  }

  ghost predicate NearRows(c: A.Chart, p: Plot, right: bool, ps: seq<Point>) {
    var top, bottom := TopRow(c, p, right), BottomRow(c, p, right);
    top <= bottom && Within(ps, top - Below(bottom - top), bottom + Above(bottom - top))
  }

  lemma {:induction false} CurvesInside(shape: Shape, stepped: bool, c: A.Chart, p: Plot, right: bool, s: nat)
    requires Tame(shape, stepped) && !c.stream && ValidPlot(p) && s <= |c.series| && c.maxLen > 0
    ensures
      stepped || AllCalm(Boundary(Heights(c, right, s), p, right)) ==>
        InsideRows(c, p, right, Drawn(shape, c, p, right, s))
    ensures NearRows(c, p, right, Drawn(shape, c, p, right, s))
  {
    RawPointsInside(c, p, right, s);
  }

  lemma {:induction false} FillWithin(top: seq<Point>, bottom: seq<Point>, first: int, last: int)
    requires Within(top, first, last) && Within(bottom, first, last)
    ensures Within(top + Backwards(bottom), first, last)
  {
  }

  /**
    Where a curved layer is drawn, for every chart and plot. A stepped one never leaves
    the rows of the range that the separate scan computed, nor does a smooth one whose
    segments are all calm; any smooth one leaves them by at most an eighth, rounded.
  */
  lemma {:induction false} OutlinesInside(shape: Shape, stepped: bool, c: A.Chart, p: Plot, s: nat, o: Outline)
    requires Tame(shape, stepped) && !c.stream && ValidPlot(p) && s < |c.series| && c.maxLen > 0
    requires IsOutline(shape, c, p, s, o)
    ensures
      var calm := AllCalm(Boundary(Heights(c, o.right, s), p, o.right))
                  && AllCalm(Boundary(Heights(c, o.right, s + 1), p, o.right));
      stepped || calm ==> InsideRows(c, p, o.right, o.fill)
    ensures NearRows(c, p, o.right, o.fill)
  {
    CurvesInside(shape, stepped, c, p, o.right, s);
    CurvesInside(shape, stepped, c, p, o.right, s + 1);
    FilledInside(c, p, o);
  }

  lemma {:induction false} FilledInside(c: A.Chart, p: Plot, o: Outline)
    requires IsFilled(o) && NearRows(c, p, o.right, o.top) && NearRows(c, p, o.right, o.bottom)
    ensures InsideRows(c, p, o.right, o.top) && InsideRows(c, p, o.right, o.bottom) ==> InsideRows(c, p, o.right, o.fill)
    ensures NearRows(c, p, o.right, o.fill)
  {
    var top, bottom := TopRow(c, p, o.right), BottomRow(c, p, o.right);
    if Within(o.top, top, bottom) && Within(o.bottom, top, bottom) {
      FillWithin(o.top, o.bottom, top, bottom);
    }
    FillWithin(o.top, o.bottom, top - Below(bottom - top), bottom + Above(bottom - top));
  }

  /** Two series, of which the first dips from 100 to 0 and back and the second is flat. */
  function DippingChart(): (c: A.Chart) {
    A.Chart([A.Series([Some(100.0), Some(0.0), Some(0.0), Some(100.0)], false),
             A.Series([Some(0.0), Some(0.0), Some(0.0), Some(0.0)], false)], [], 4, false, false)
  }

  /** The ends of what an axis shows are the ends of the plot. */
  lemma {:induction false} RowEnds(r: Range, y0: int, y1: int)
    requires r.lo < r.hi && y0 <= y1
    ensures Row(r.hi, r, y0, y1) == y0 && Row(r.lo, r, y0, y1) == y1
  {
    Quotients(r.hi - r.lo);
    LiftEnds(y1 - y0);
  }

  lemma {:induction false} Quotients(x: real)
    requires x != 0.0
    ensures x / x == 1.0 && 0.0 / x == 0.0
  {
  }

  lemma {:induction false} LiftEnds(rows: nat)
    ensures Lift(1.0, rows) == rows && Lift(0.0, rows) == 0
  {
    assert 1.0 * rows as real == rows as real && 0.0 * rows as real == 0.0;
  }

  /** The plot that shows 0 to 100, with eight columns from category to category. */
  function PlotOf(y0: int, y1: int): (p: Plot)
    requires 0 <= y0 <= y1
  {
    LinearPlot(y0, y1, i => 8 * i, Range(true, 0.0, 100.0), Range(true, 0.0, 100.0))
  }

  lemma {:induction false} DrawnThrough(shape: Shape, c: A.Chart, p: Plot, right: bool, s: nat, raw: seq<Point>)
    requires s <= |c.series| && Boundary(Heights(c, right, s), p, right) == raw
    ensures Drawn(shape, c, p, right, s) == shape(raw)
  {
  }

  /**
    A smooth chart that leaves its range, on plots of every height: the top of its first
    layer is drawn an eighth of the plot's height below the plot, and below the layer's
    own bottom, which is the last row. On 100 rows that is 13 rows outside.
  */
  lemma {:induction false} SmoothLeavesThePlot(y0: int, y1: int)
    requires 0 <= y0 <= y1
    ensures A.AxisRange(DippingChart(), false) == Range(true, 0.0, 100.0)
    ensures Point(12, y1 + Above(y1 - y0)) in Drawn(ShapeOf(CatmullAt, Smooth), DippingChart(), PlotOf(y0, y1), false, 1)
    ensures forall i :: 0 <= i < 4 ==> Boundary(Heights(DippingChart(), false, 0), PlotOf(y0, y1), false)[i].y == y1
  {
    DippingRange();
    DippingBoundaries(y0, y1);
    DrawnThrough(ShapeOf(CatmullAt, Smooth), DippingChart(), PlotOf(y0, y1), false, 1, Dip(y0, y1));
    DipOvershoots(y0, y1);
  }

  lemma {:induction false} DippingBoundaries(y0: int, y1: int)
    requires 0 <= y0 <= y1
    ensures Boundary(Heights(DippingChart(), false, 1), PlotOf(y0, y1), false) == Dip(y0, y1)
    ensures forall i :: 0 <= i < 4 ==> Boundary(Heights(DippingChart(), false, 0), PlotOf(y0, y1), false)[i].y == y1
  {
    DippingHeights();
    RowEnds(Range(true, 0.0, 100.0), y0, y1);
    TwoBoundaries(PlotOf(y0, y1), Heights(DippingChart(), false, 1), y0, y1);
  }

  lemma {:induction false} TwoBoundaries(p: Plot, hs: seq<real>, y0: int, y1: int)
    requires RowOf(p, false, 100.0) == y0 && RowOf(p, false, 0.0) == y1
    requires p.centre(0) == 0 && p.centre(1) == 8 && p.centre(2) == 16 && p.centre(3) == 24
    requires hs == [100.0, 0.0, 0.0, 100.0]
    ensures Boundary(hs, p, false) == Dip(y0, y1)
  {
  }

  lemma {:induction false} DippingHeights()
    ensures Heights(DippingChart(), false, 1) == [100.0, 0.0, 0.0, 100.0]
    ensures Heights(DippingChart(), false, 2) == [100.0, 0.0, 0.0, 100.0]
  {
    var c := DippingChart();
    forall i | 0 <= i < 4 ensures A.Height(c, false, 1, i) == [100.0, 0.0, 0.0, 100.0][i] == A.Height(c, false, 2, i) {
      assert A.Height(c, false, 0, i) == 0.0;
    }
  }

  lemma {:induction false} DippingScan(i: nat, r: Range)
    requires i < 4
    ensures
      var c, v := DippingChart(), [100.0, 0.0, 0.0, 100.0][i];
      A.ScanSeries(c, false, i, 2, r) == Update(Update(r, v), v)
  {
    DippingHeights();
    var c := DippingChart();
    assert A.Height(c, false, 1, i) == Heights(c, false, 1)[i];
    assert A.Height(c, false, 2, i) == Heights(c, false, 2)[i];
    assert A.ScanSeries(c, false, i, 0, r) == r;
    assert A.ScanSeries(c, false, i, 1, r) == Update(r, A.Height(c, false, 1, i));
  }

  lemma {:induction false} DippingRange()
    ensures A.AxisRange(DippingChart(), false) == Range(true, 0.0, 100.0)
  {
    var c := DippingChart();
    assert A.ScanTo(c, false, 0) == Unseen;
    DippingScan(0, Unseen);
    assert A.ScanTo(c, false, 1) == Range(true, 100.0, 100.0);
    DippingScan(1, A.ScanTo(c, false, 1));
    assert A.ScanTo(c, false, 2) == Range(true, 0.0, 100.0);
    DippingScan(2, A.ScanTo(c, false, 2));
    assert A.ScanTo(c, false, 3) == Range(true, 0.0, 100.0);
    DippingScan(3, A.ScanTo(c, false, 3));
    assert A.ScanTo(c, false, 4) == Range(true, 0.0, 100.0);
  }

  // ---------------------------------------------------------------- fitting together

  lemma {:induction false} SameHeights(c: A.Chart, right: bool, s: nat, t: nat)
    requires s <= t <= |c.series| && forall k :: s <= k < t ==> !A.OnAxis(c, right, k)
    ensures Heights(c, right, s) == Heights(c, right, t)
  {
    forall i | 0 <= i < c.maxLen ensures Heights(c, right, s)[i] == Heights(c, right, t)[i] {
      A.HeightSkipsOtherAxis(c, right, s, t, i);
    }
  }

  lemma {:induction false} SameDrawn(shape: Shape, c: A.Chart, p: Plot, right: bool, s: nat, t: nat)
    requires s <= |c.series| && t <= |c.series| && Heights(c, right, s) == Heights(c, right, t)
    ensures Drawn(shape, c, p, right, s) == Drawn(shape, c, p, right, t)
  {
  }

  lemma {:induction false} TopIsNextBottom(shape: Shape, c: A.Chart, p: Plot, right: bool, s: nat, t: nat)
    requires s < t < |c.series| && forall k :: s < k < t ==> !A.OnAxis(c, right, k)
    ensures Drawn(shape, c, p, right, s + 1) == Drawn(shape, c, p, right, t)
  {
    SameHeights(c, right, s + 1, t);
    SameDrawn(shape, c, p, right, s + 1, t);
  }

  /**
    Neighbouring layers of an axis tile on the canvas, whatever the interpolation: the
    curve drawn on top of one is point for point the curve drawn below the next.
  */
  lemma {:induction false} OutlinesTile(shape: Shape, c: A.Chart, p: Plot, s: nat, t: nat, a: Outline, b: Outline)
    requires s < t < |c.series| && IsOutline(shape, c, p, s, a) && IsOutline(shape, c, p, t, b)
    requires a.right == b.right && forall k :: s < k < t ==> !A.OnAxis(c, a.right, k)
    ensures a.top == b.bottom
  {
    TopIsNextBottom(shape, c, p, a.right, s, t);
  }

  /** One curve nowhere below another, column by column. */
  ghost predicate NowhereBelow(a: seq<Point>, b: seq<Point>) {
    |a| == |b| && forall j :: 0 <= j < |a| ==> a[j].x == b[j].x && a[j].y <= b[j].y
  }

  lemma {:induction false} ConcatKeepsOrder(a: seq<Point>, b: seq<Point>, x: seq<Point>, y: seq<Point>)
    requires NowhereBelow(a, b) && NowhereBelow(x, y)
    ensures NowhereBelow(a + x, b + y)
  {
  }

  lemma {:induction false} PieceKeepsOrder(at: Blend, interp: Interp, a: seq<Point>, b: seq<Point>, i: nat)
    requires interp != Smooth && i + 1 < |a| && NowhereBelow(a, b)
    ensures NowhereBelow(Piece(at, interp, a, i), Piece(at, interp, b, i))
  {
  }

  lemma {:induction false} StepsKeepOrder(at: Blend, interp: Interp, a: seq<Point>, b: seq<Point>, n: nat)
    requires interp != Smooth && n < |a| && NowhereBelow(a, b)
    ensures NowhereBelow(CurveTo(at, interp, a, n), CurveTo(at, interp, b, n))
  {
    if n > 0 {
      StepsKeepOrder(at, interp, a, b, n - 1);
      PieceKeepsOrder(at, interp, a, b, n - 1);
      ConcatKeepsOrder(CurveTo(at, interp, a, n - 1), CurveTo(at, interp, b, n - 1),
                       Piece(at, interp, a, n - 1), Piece(at, interp, b, n - 1));
    }
  }

  lemma {:induction false} HeightsRise(c: A.Chart, right: bool, s: nat, t: nat, i: nat)
    requires s <= t <= |c.series|
    requires forall k :: s <= k < t ==> A.Added(c, k, i) >= 0.0
    ensures A.Height(c, right, s, i) <= A.Height(c, right, t, i)
  {
    if s < t {
      HeightsRise(c, right, s, t - 1, i);
    }
  }

  /**
    Stepped layers without negative values never overlap: over every column the boundary
    below series t is drawn nowhere below the boundary below an earlier series s. For
    smooth curves this fails, see SmoothLeavesThePlot.
  */
  lemma {:induction false} StepLayersInOrder(at: Blend, c: A.Chart, interp: Interp, p: Plot, right: bool, s: nat, t: nat)
    requires ValidPlot(p) && interp != Smooth && s <= t <= |c.series|
    requires forall k, i :: s <= k < t && 0 <= i < c.maxLen ==> A.Added(c, k, i) >= 0.0
    ensures NowhereBelow(Drawn(ShapeOf(at, interp), c, p, right, t), Drawn(ShapeOf(at, interp), c, p, right, s))
  {
    var a, b := Boundary(Heights(c, right, t), p, right), Boundary(Heights(c, right, s), p, right);
    forall i | 0 <= i < c.maxLen ensures a[i].y <= b[i].y {
      HeightsRise(c, right, s, t, i);
      RowsOfFall(p, right, A.Height(c, right, s, i), A.Height(c, right, t, i));
    }
    if c.maxLen > 0 {
      StepsKeepOrder(at, interp, a, b, c.maxLen - 1);
    }
  }
}
