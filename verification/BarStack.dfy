/**
  The values of a bar chart: bar_compute_range scans the data in one of three ways, and
  the drawing loop stacks, layers or floats the bars. Values are reals, a gap (NaN) is
  None.
*/
module BarStack {
  import opened Common
  import opened ChartRange

  /** `upper` holds the upper ends of floating bars, when the series has them. */
  datatype Series = Series(values: seq<Option<real>>, upper: Option<seq<Option<real>>>)

  datatype Mode = Floating | Stacked | Beside

  /** `mode` is Stacked only with two series or more; layered bars are ranged as Beside. */
  datatype Chart = Chart(series: seq<Series>, overlays: seq<seq<Option<real>>>, categories: nat, mode: Mode)

  function Read(s: Series, i: nat): (v: Option<real>) {
    if i >= |s.values| then None else s.values[i]
  }

  function ReadUpper(s: Series, i: nat): (v: Option<real>) {
    if s.upper.None? || i >= |s.upper.value| then None else s.upper.value[i]
  }

  // ---------------------------------------------------------------- stacks

  /** The top of the positive stack of a category under series s. */
  function Pos(c: Chart, s: nat, i: nat): (p: real)
    requires s <= |c.series|
    ensures p >= 0.0
  {
    if s == 0 then 0.0
    else
      var v := Read(c.series[s - 1], i);
      if v.Some? && v.value >= 0.0 then Pos(c, s - 1, i) + v.value else Pos(c, s - 1, i)
  }

  /** The bottom of the negative stack. */
  function Neg(c: Chart, s: nat, i: nat): (p: real)
    requires s <= |c.series|
    ensures p <= 0.0
  {
    if s == 0 then 0.0
    else
      var v := Read(c.series[s - 1], i);
      if v.Some? && v.value < 0.0 then Neg(c, s - 1, i) + v.value else Neg(c, s - 1, i)
  }

  /** A drawn segment of a stack. */
  datatype Segment = Segment(series: nat, a: real, b: real)

  /** The segments of a category, in drawing order. */
  function Segments(c: Chart, s: nat, i: nat): (r: seq<Segment>)
    requires s <= |c.series|
  {
    if s == 0 then []
    else
      var before := Segments(c, s - 1, i);
      var v := Read(c.series[s - 1], i);
      if v.None? then before
      else if v.value >= 0.0 then before + [Segment(s - 1, Pos(c, s - 1, i), Pos(c, s, i))]
      else before + [Segment(s - 1, Neg(c, s, i), Neg(c, s - 1, i))]
  }

  /** The stacked branch of the drawing loop, for one category. */
  method DrawStack(c: Chart, i: nat) returns (r: seq<Segment>)
    ensures r == Segments(c, |c.series|, i)
  {
    r := [];
    var posAcc, negAcc := 0.0, 0.0;
    for s := 0 to |c.series|
      invariant posAcc == Pos(c, s, i) && negAcc == Neg(c, s, i)
      invariant r == Segments(c, s, i)
    {
      var v := Read(c.series[s], i);
      if v.Some? {
        var a, b;
        if v.value >= 0.0 {
          a, b := posAcc, posAcc + v.value;
          posAcc := b;
        } else {
          a, b := negAcc + v.value, negAcc;
          negAcc := a;
        }
        r := r + [Segment(s, a, b)];
      }
    }
  }

  lemma {:induction false} StacksGrow(c: Chart, s: nat, n: nat, i: nat)
    requires s <= n <= |c.series|
    ensures Pos(c, s, i) <= Pos(c, n, i) && Neg(c, n, i) <= Neg(c, s, i)
  {
    if s < n {
      StacksGrow(c, s, n - 1, i);
    }
  }

  /** Every segment is as tall as its value and stays between the two totals. */
  lemma {:induction false} SegmentsInside(c: Chart, s: nat, i: nat, g: Segment)
    requires s <= |c.series| && g in Segments(c, s, i)
    ensures g.series < s && Read(c.series[g.series], i).Some?
    ensures Neg(c, s, i) <= g.a <= g.b <= Pos(c, s, i)
    ensures g.b - g.a == var v := Read(c.series[g.series], i).value; if v < 0.0 then -v else v
  {
    if g !in Segments(c, s - 1, i) {
      assert g == Segments(c, s, i)[|Segments(c, s, i)| - 1];
    } else {
      SegmentsInside(c, s - 1, i, g);
    }
  }

  /** Every height of the stack, from the negative total up, is covered by a segment. */
  lemma {:induction false} SegmentsCover(c: Chart, s: nat, i: nat, y: real)
    requires s <= |c.series| && Neg(c, s, i) <= y < Pos(c, s, i)
    ensures exists g :: g in Segments(c, s, i) && g.a <= y < g.b
  {
    var before := Segments(c, s - 1, i);
    if Neg(c, s - 1, i) <= y < Pos(c, s - 1, i) {
      SegmentsCover(c, s - 1, i, y);
      var g :| g in before && g.a <= y < g.b;
      assert g in Segments(c, s, i);
    } else {
      var last := Segments(c, s, i)[|Segments(c, s, i)| - 1];
      assert last in Segments(c, s, i) && last.a <= y < last.b;
    }
  }

  /** No two segments overlap. */
  lemma {:induction false} SegmentsApart(c: Chart, s: nat, i: nat, j: nat, k: nat)
    requires s <= |c.series| && j < k < |Segments(c, s, i)|
    ensures
      var g, h := Segments(c, s, i)[j], Segments(c, s, i)[k];
      g.b <= h.a || h.b <= g.a
  {
    var all, before := Segments(c, s, i), Segments(c, s - 1, i);
    if k < |before| {
      SegmentsApart(c, s - 1, i, j, k);
    } else {
      assert all[j] == before[j];
      assert before[j] in before;
      SegmentsInside(c, s - 1, i, before[j]);
    }
  }

  /**
    The segments of a category tile its stack: from the negative total through 0 to the
    positive total every height is in exactly one segment.
  */
  lemma {:induction false} SegmentsTile(c: Chart, i: nat, y: real)
    requires Neg(c, |c.series|, i) <= y < Pos(c, |c.series|, i)
    ensures
      var gs := Segments(c, |c.series|, i);
      && (exists k :: 0 <= k < |gs| && gs[k].a <= y < gs[k].b)
      && (forall j, k :: 0 <= j < k < |gs| ==> !(gs[j].a <= y < gs[j].b && gs[k].a <= y < gs[k].b))
  {
    var gs := Segments(c, |c.series|, i);
    SegmentsCover(c, |c.series|, i, y);
    var g :| g in gs && g.a <= y < g.b;
    var k :| 0 <= k < |gs| && gs[k] == g;
    assert gs[k].a <= y < gs[k].b;
    forall j, k | 0 <= j < k < |gs| ensures !(gs[j].a <= y < gs[j].b && gs[k].a <= y < gs[k].b) {
      SegmentsApart(c, |c.series|, i, j, k);
    }
  }

  /** Every value that is not a gap has its segment, on its side of zero; a gap has none. */
  lemma {:induction false} SegmentsComplete(c: Chart, s: nat, i: nat, k: nat)
    requires k < s <= |c.series|
    ensures
      var v := Read(c.series[k], i);
      && (v.Some? <==> exists g :: g in Segments(c, s, i) && g.series == k)
      && (forall g :: g in Segments(c, s, i) && g.series == k ==> if v.value >= 0.0 then g.a >= 0.0 else g.b <= 0.0)
  {
    var before, all := Segments(c, s - 1, i), Segments(c, s, i);
    forall g | g in before ensures g.series < s - 1 {
      SegmentsInside(c, s - 1, i, g);
    }
    if k < s - 1 {
      SegmentsComplete(c, s - 1, i, k);
      forall g | g in all && g.series == k ensures g in before {
        assert g != all[|all| - 1] || g in before;
      }
      assert forall g :: g in before ==> g in all;
    } else if Read(c.series[k], i).Some? {
      assert all[|all| - 1] in all && all[|all| - 1].series == k;
    }
  }

  /** Series stack up in their order, away from zero on either side. */
  lemma {:induction false} SegmentsInOrder(c: Chart, s: nat, i: nat, j: nat, k: nat)
    requires s <= |c.series| && j < k < |Segments(c, s, i)|
    ensures
      var g, h := Segments(c, s, i)[j], Segments(c, s, i)[k];
      && g.series < h.series
      && (0.0 <= g.a && 0.0 <= h.a ==> g.b <= h.a || h.b == h.a == 0.0)
      && (g.b <= 0.0 && h.b <= 0.0 ==> h.b <= g.a || h.b == h.a == 0.0)
  {
    var all, before := Segments(c, s, i), Segments(c, s - 1, i);
    if k < |before| {
      SegmentsInOrder(c, s - 1, i, j, k);
    } else {
      assert all[j] == before[j];
      assert before[j] in before;
      SegmentsInside(c, s - 1, i, before[j]);
    }
  }

  // ---------------------------------------------------------------- the range

  function ScanStacked(c: Chart, n: nat): (r: Range) {
    if n == 0 then Unseen
    else UpdatePair(ScanStacked(c, n - 1), Neg(c, |c.series|, n - 1), Pos(c, |c.series|, n - 1))
  }

  /** The ends of what a cell of the data spans on the axis, if it is not a gap. */
  function Ends(c: Chart, s: nat, i: nat): (e: Option<(real, real)>)
    requires s < |c.series|
  {
    var lo := Read(c.series[s], i);
    var hi := if c.mode == Floating then ReadUpper(c.series[s], i) else lo;
    if lo.None? || hi.None? then None else Some((lo.value, hi.value))
  }

  /** One series of the scan for floating and side-by-side bars. */
  function ScanValues(c: Chart, s: nat, n: nat, r: Range): (q: Range)
    requires s < |c.series| && n <= |c.series[s].values|
  {
    if n == 0 then r
    else
      var before := ScanValues(c, s, n - 1, r);
      var e := Ends(c, s, n - 1);
      if e.Some? then UpdatePair(before, e.value.0, e.value.1) else before
  }

  function ScanSeries(c: Chart, s: nat): (r: Range)
    requires s <= |c.series|
  {
    if s == 0 then Unseen else ScanValues(c, s - 1, |c.series[s - 1].values|, ScanSeries(c, s - 1))
  }

  function Overlaid(c: Chart, n: nat, r: Range): (q: Range)
    requires n <= |c.overlays|
  {
    if n == 0 then r
    else OverlayValues(c.overlays[n - 1], Limit(|c.overlays[n - 1]|, c.categories), Overlaid(c, n - 1, r))
  }

  function DataRange(c: Chart): (r: Range) {
    var scanned := if c.mode == Stacked then ScanStacked(c, c.categories) else ScanSeries(c, |c.series|);
    var all := Overlaid(c, |c.overlays|, scanned);
    if c.mode == Floating then all else Anchor(all)
  }

  /** The positive and negative total of one category. */
  method Totals(c: Chart, i: nat) returns (neg: real, pos: real)
    ensures neg == Neg(c, |c.series|, i) && pos == Pos(c, |c.series|, i)
  {
    neg, pos := 0.0, 0.0;
    for s := 0 to |c.series|
      invariant neg == Neg(c, s, i) && pos == Pos(c, s, i)
    {
      var v := Read(c.series[s], i);
      if v.Some? {
        if v.value >= 0.0 {
          pos := pos + v.value;
        } else {
          neg := neg + v.value;
        }
      }
    }
  }

  /** The two loops that go through the series one after another. */
  method ScanAll(c: Chart) returns (r: Range)
    ensures r == ScanSeries(c, |c.series|)
  {
    r := Unseen;
    for s := 0 to |c.series|
      invariant r == ScanSeries(c, s)
    {
      ghost var before := r;
      for i := 0 to |c.series[s].values|
        invariant r == ScanValues(c, s, i, before)
      {
        var lo := c.series[s].values[i];
        var hi := if c.mode == Floating then ReadUpper(c.series[s], i) else lo;
        if lo.Some? && hi.Some? {
          if !r.seen {
            r := Range(true, lo.value, hi.value);
          } else {
            if lo.value < r.lo { r := r.(lo := lo.value); }
            if hi.value > r.hi { r := r.(hi := hi.value); }
          }
        }
      }
    }
  }

  /** bar_compute_range; `seen` false is its -1. */
  method ComputeRange(c: Chart) returns (r: Range)
    ensures r == DataRange(c)
  {
    if c.mode == Stacked {
      r := Unseen;
      for i := 0 to c.categories
        invariant r == ScanStacked(c, i)
      {
        var neg, pos := Totals(c, i);
        if !r.seen {
          r := Range(true, neg, pos);
        } else {
          if pos > r.hi { r := r.(hi := pos); }
          if neg < r.lo { r := r.(lo := neg); }
        }
      }
    } else {
      r := ScanAll(c);
    }
    ghost var scanned := r;
    for n := 0 to |c.overlays|
      invariant r == Overlaid(c, n, scanned)
    {
      r := AddOverlay(c.overlays[n], c.categories, r);
    }
    if c.mode != Floating {
      if r.lo > 0.0 { r := r.(lo := 0.0); }
      if r.hi < 0.0 { r := r.(hi := 0.0); }
    }
  }

  // ---------------------------------------------------------------- the scan covers the drawing

  lemma {:induction false} OverlaidGrows(c: Chart, n: nat, r: Range, v: real)
    requires n <= |c.overlays| && r.seen && Inside(v, r)
    ensures Overlaid(c, n, r).seen && Inside(v, Overlaid(c, n, r))
  {
    if n > 0 {
      OverlaidGrows(c, n - 1, r, v);
      var o := c.overlays[n - 1];
      OverlayValuesGrow(o, Limit(|o|, c.categories), Overlaid(c, n - 1, r), v);
    }
  }

  lemma {:induction false} StackedScanned(c: Chart, i: nat, n: nat)
    requires i < n
    ensures
      var r := ScanStacked(c, n);
      r.seen && r.lo <= Neg(c, |c.series|, i) && Pos(c, |c.series|, i) <= r.hi
  {
    if i < n - 1 {
      StackedScanned(c, i, n - 1);
    }
  }

  /** Every stacked segment lies inside the range of the separate scan. */
  lemma {:induction false} StackInsideRange(c: Chart, i: nat, g: Segment)
    requires c.mode == Stacked && i < c.categories && g in Segments(c, |c.series|, i)
    ensures Inside(g.a, DataRange(c)) && Inside(g.b, DataRange(c)) && Inside(0.0, DataRange(c))
  {
    var n := |c.series|;
    StackedScanned(c, i, c.categories);
    SegmentsInside(c, n, i, g);
    var r := ScanStacked(c, c.categories);
    OverlaidGrows(c, |c.overlays|, r, g.a);
    OverlaidGrows(c, |c.overlays|, r, g.b);
  }

  /** A cell's ends are covered; for floating bars the setter has put the lower one first. */
  ghost predicate Ordered(c: Chart) {
    c.mode == Floating ==>
      forall s, i :: 0 <= s < |c.series| && 0 <= i && Read(c.series[s], i).Some? && ReadUpper(c.series[s], i).Some? ==>
        Read(c.series[s], i).value <= ReadUpper(c.series[s], i).value
  }

  ghost predicate Covers(r: Range, e: (real, real)) {
    r.seen && r.lo <= e.0 && e.1 <= r.hi
  }

  lemma {:induction false} ValuesKeep(c: Chart, s: nat, n: nat, r: Range, e: (real, real))
    requires s < |c.series| && n <= |c.series[s].values| && Covers(r, e)
    ensures Covers(ScanValues(c, s, n, r), e)
  {
    if n > 0 {
      ValuesKeep(c, s, n - 1, r, e);
    }
  }

  lemma {:induction false} ValuesScanned(c: Chart, s: nat, i: nat, n: nat, r: Range)
    requires s < |c.series| && i < n <= |c.series[s].values| && Ends(c, s, i).Some?
    ensures Covers(ScanValues(c, s, n, r), Ends(c, s, i).value)
  {
    if i < n - 1 {
      ValuesScanned(c, s, i, n - 1, r);
    }
  }

  lemma {:induction false} SeriesScanned(c: Chart, s: nat, i: nat, n: nat)
    requires s < n <= |c.series| && i < |c.series[s].values| && Ends(c, s, i).Some?
    ensures Covers(ScanSeries(c, n), Ends(c, s, i).value)
  {
    if s == n - 1 {
      ValuesScanned(c, s, i, |c.series[s].values|, ScanSeries(c, s));
    } else {
      SeriesScanned(c, s, i, n - 1);
      ValuesKeep(c, n - 1, |c.series[n - 1].values|, ScanSeries(c, n - 1), Ends(c, s, i).value);
    }
  }

  /**
    Floating, layered and side-by-side bars: both ends of every bar lie inside the range,
    and unless the bars float so does the zero line they stand on.
  */
  lemma {:induction false} BarsInsideRange(c: Chart, s: nat, i: nat)
    requires c.mode != Stacked && Ordered(c) && s < |c.series| && Read(c.series[s], i).Some?
    requires c.mode == Floating ==> ReadUpper(c.series[s], i).Some?
    ensures Inside(Read(c.series[s], i).value, DataRange(c))
    ensures c.mode == Floating ==> Inside(ReadUpper(c.series[s], i).value, DataRange(c))
    ensures c.mode == Beside ==> Inside(0.0, DataRange(c))
  {
    var e := Ends(c, s, i).value;
    SeriesScanned(c, s, i, |c.series|);
    OverlaidGrows(c, |c.overlays|, ScanSeries(c, |c.series|), e.0);
    OverlaidGrows(c, |c.overlays|, ScanSeries(c, |c.series|), e.1);
  }

  // ---------------------------------------------------------------- overlays, and the ends of the range

  lemma {:induction false} OverlaidSeen(c: Chart, n: nat, o: nat, i: nat, r: Range)
    requires o < n <= |c.overlays| && i < |c.overlays[o]| && i < c.categories && c.overlays[o][i].Some?
    ensures Overlaid(c, n, r).seen && Inside(c.overlays[o][i].value, Overlaid(c, n, r))
  {
    var last := c.overlays[n - 1];
    if o == n - 1 {
      OverlaySeen(last, Limit(|last|, c.categories), i, Overlaid(c, n - 1, r));
    } else {
      OverlaidSeen(c, n - 1, o, i, r);
      OverlayValuesGrow(last, Limit(|last|, c.categories), Overlaid(c, n - 1, r), c.overlays[o][i].value);
    }
  }

  /** Every overlay value over a category lies inside the range. */
  lemma {:induction false} OverlaysInsideRange(c: Chart, o: nat, i: nat)
    requires o < |c.overlays| && i < |c.overlays[o]| && i < c.categories && c.overlays[o][i].Some?
    ensures DataRange(c).seen && Inside(c.overlays[o][i].value, DataRange(c))
  {
    OverlaidSeen(c, |c.overlays|, o, i, if c.mode == Stacked then ScanStacked(c, c.categories) else ScanSeries(c, |c.series|));
  }

  /** A value that the chart itself has: the zero line, an overlay value, a total, an end of a bar. */
  ghost predicate Attained(c: Chart, v: real) {
    || (c.mode != Floating && v == 0.0)
    || (exists o, i :: 0 <= o < |c.overlays| && 0 <= i < |c.overlays[o]| && i < c.categories && c.overlays[o][i] == Some(v))
    || (c.mode == Stacked && exists i: nat :: i < c.categories && (v == Neg(c, |c.series|, i) || v == Pos(c, |c.series|, i)))
    || (c.mode != Stacked && exists s, i :: 0 <= s < |c.series| && 0 <= i < |c.series[s].values| && IsEnd(c, s, i, v))
  }

  ghost predicate IsEnd(c: Chart, s: nat, i: nat, v: real)
    requires s < |c.series|
  {
    Ends(c, s, i).Some? && (v == Ends(c, s, i).value.0 || v == Ends(c, s, i).value.1)
  }

  ghost predicate EndsAttained(c: Chart, r: Range) {
    r.seen ==> Attained(c, r.lo) && Attained(c, r.hi)
  }

  lemma {:induction false} StackedAttained(c: Chart, n: nat)
    requires c.mode == Stacked && n <= c.categories
    ensures EndsAttained(c, ScanStacked(c, n))
  {
    if n > 0 {
      StackedAttained(c, n - 1);
      assert Attained(c, Neg(c, |c.series|, n - 1)) && Attained(c, Pos(c, |c.series|, n - 1));
    }
  }

  lemma {:induction false} ValuesAttained(c: Chart, s: nat, n: nat, r: Range)
    requires c.mode != Stacked && s < |c.series| && n <= |c.series[s].values| && EndsAttained(c, r)
    ensures EndsAttained(c, ScanValues(c, s, n, r))
  {
    if n > 0 {
      ValuesAttained(c, s, n - 1, r);
      var e := Ends(c, s, n - 1);
      if e.Some? {
        assert IsEnd(c, s, n - 1, e.value.0) && IsEnd(c, s, n - 1, e.value.1);
      }
    }
  }

  lemma {:induction false} SeriesAttained(c: Chart, s: nat)
    requires c.mode != Stacked && s <= |c.series|
    ensures EndsAttained(c, ScanSeries(c, s))
  {
    if s > 0 {
      SeriesAttained(c, s - 1);
      ValuesAttained(c, s - 1, |c.series[s - 1].values|, ScanSeries(c, s - 1));
    }
  }

  lemma {:induction false} OverlayAttained(c: Chart, o: nat, n: nat, r: Range)
    requires o < |c.overlays| && n <= |c.overlays[o]| && n <= c.categories && EndsAttained(c, r)
    ensures EndsAttained(c, OverlayValues(c.overlays[o], n, r))
  {
    if n > 0 {
      OverlayAttained(c, o, n - 1, r);
      var v := c.overlays[o][n - 1];
      if v.Some? {
        assert Attained(c, v.value);
      }
    }
  }

  lemma {:induction false} OverlaidAttained(c: Chart, n: nat, r: Range)
    requires n <= |c.overlays| && EndsAttained(c, r)
    ensures EndsAttained(c, Overlaid(c, n, r))
  {
    if n > 0 {
      OverlaidAttained(c, n - 1, r);
      OverlayAttained(c, n - 1, Limit(|c.overlays[n - 1]|, c.categories), Overlaid(c, n - 1, r));
    }
  }

  /** The range is no wider than the chart: both its ends are values the chart has. */
  lemma {:induction false} RangeIsTight(c: Chart)
    ensures EndsAttained(c, DataRange(c))
  {
    if c.mode == Stacked {
      StackedAttained(c, c.categories);
      OverlaidAttained(c, |c.overlays|, ScanStacked(c, c.categories));
    } else {
      SeriesAttained(c, |c.series|);
      OverlaidAttained(c, |c.overlays|, ScanSeries(c, |c.series|));
    }
  }
}
