/**
  Stacked and stream area charts. One pass over the data computes the axis ranges, a
  second pass draws the layers; nothing but arithmetic connects the two. Values are
  reals, a gap (NaN) is None.
*/
module AreaStack {
  import opened ChartRange
  import opened Common

  datatype Series = Series(values: seq<Option<real>>, rightAxis: bool)

  /** A line drawn over the areas: it takes part in the range, not in the stack. */
  datatype Overlay = Overlay(values: seq<Option<real>>, rightAxis: bool)

  /** The settings that matter, already resolved: `stream` implies two series or more. */
  datatype Chart = Chart(series: seq<Series>, overlays: seq<Overlay>, maxLen: nat, secondaryY: bool, stream: bool)

  /** area_read_value: past the end of a series is a gap. */
  function Read(s: Series, i: nat): (v: Option<real>) {
    if i >= |s.values| then None else s.values[i]
  }

  predicate OnRight(c: Chart, s: nat)
    requires s < |c.series|
  {
    c.secondaryY && !c.stream && c.series[s].rightAxis
  }

  predicate OnAxis(c: Chart, right: bool, s: nat)
    requires s < |c.series|
  {
    OnRight(c, s) == right
  }

  /** What a value adds to its stack: a stream clamps negatives, a gap adds nothing. */
  function Added(c: Chart, s: nat, i: nat): (v: real)
    requires s < |c.series|
  {
    var v := Read(c.series[s], i);
    if v.None? then 0.0 else if c.stream && v.value < 0.0 then 0.0 else v.value
  }

  /** The height of an axis' stack at a category, before series s is put on it. */
  function Height(c: Chart, right: bool, s: nat, i: nat): (h: real)
    requires s <= |c.series|
  {
    if s == 0 then 0.0
    else Height(c, right, s - 1, i) + if OnAxis(c, right, s - 1) then Added(c, s - 1, i) else 0.0
  }

  // ---------------------------------------------------------------- the range scan

  /** One category: the partial sums of an axis over the first s series, gaps skipped. */
  function ScanSeries(c: Chart, right: bool, i: nat, s: nat, r: Range): (q: Range)
    requires s <= |c.series|
  {
    if s == 0 then r
    else
      var before := ScanSeries(c, right, i, s - 1, r);
      if OnAxis(c, right, s - 1) && Read(c.series[s - 1], i).Some?
      then Update(before, Height(c, right, s, i))
      else before
  }

  function ScanTo(c: Chart, right: bool, i: nat): (q: Range) {
    if i == 0 then Unseen else ScanSeries(c, right, i - 1, |c.series|, ScanTo(c, right, i - 1))
  }

  function Total(c: Chart, i: nat): (t: real) { Height(c, false, |c.series|, i) }

  function MaxTotal(c: Chart, n: nat): (t: real) {
    if n == 0 then 0.0 else if Total(c, n - 1) > MaxTotal(c, n - 1) then Total(c, n - 1) else MaxTotal(c, n - 1)
  }

  /** The range after the stacked scan: anchored partial sums, or for a stream the symmetric one. */
  function StackRange(c: Chart, right: bool): (r: Range) {
    if c.stream && !right then
      var m := MaxTotal(c, c.maxLen);
      var t := if m <= 0.0 then 1.0 else m;
      Range(ScanTo(c, false, c.maxLen).seen, -t / 2.0, t / 2.0)
    else Anchor(ScanTo(c, right, c.maxLen))
  }

  /** The overlays of an axis, each over at most maxLen values. */
  function Overlaid(c: Chart, right: bool, n: nat, r: Range): (q: Range)
    requires n <= |c.overlays|
  {
    if n == 0 then r
    else
      var before := Overlaid(c, right, n - 1, r);
      var o := c.overlays[n - 1];
      if (c.secondaryY && !c.stream && o.rightAxis) == right
      then OverlayValues(o.values, Limit(|o.values|, c.maxLen), before)
      else before
  }

  /** The final range of an axis: only a stream is not anchored at zero again. */
  function AxisRange(c: Chart, right: bool): (r: Range) {
    var q := Overlaid(c, right, |c.overlays|, StackRange(c, right));
    if c.stream then q else Anchor(q)
  }

  /** The overlay loop for one axis. */
  method AddOverlays(c: Chart, right: bool, r: Range) returns (q: Range)
    ensures q == Overlaid(c, right, |c.overlays|, r)
  {
    q := r;
    for n := 0 to |c.overlays|
      invariant q == Overlaid(c, right, n, r)
    {
      var o := c.overlays[n];
      if (c.secondaryY && !c.stream && o.rightAxis) == right {
        q := AddOverlay(o.values, c.maxLen, q);
      }
    }
  }

  /** One category of the scan: both running sums, both ranges. */
  method ScanCategory(c: Chart, i: nat, l0: Range, r0: Range) returns (l: Range, r: Range)
    ensures l == ScanSeries(c, false, i, |c.series|, l0)
    ensures r == ScanSeries(c, true, i, |c.series|, r0)
  {
    l, r := l0, r0;
    var cumL, cumR := 0.0, 0.0;
    for s := 0 to |c.series|
      invariant cumL == Height(c, false, s, i) && cumR == Height(c, true, s, i)
      invariant l == ScanSeries(c, false, i, s, l0)
      invariant r == ScanSeries(c, true, i, s, r0)
    {
      var read := Read(c.series[s], i);
      if read.Some? {
        var v := read.value;
        if c.stream && v < 0.0 {
          v := 0.0;
        }
        if c.secondaryY && !c.stream && c.series[s].rightAxis {
          cumR := cumR + v;
          r := Update(r, cumR);
        } else {
          cumL := cumL + v;
          l := Update(l, cumL);
        }
      }
    }
  }

  /** The tallest total, and whether there was any number at all. */
  method StreamTotal(c: Chart) returns (maxTotal: real)
    requires c.stream
    ensures maxTotal == MaxTotal(c, c.maxLen)
  {
    maxTotal := 0.0;
    for i := 0 to c.maxLen
      invariant maxTotal == MaxTotal(c, i)
    {
      var tot := 0.0;
      for s := 0 to |c.series|
        invariant tot == Height(c, false, s, i)
      {
        var read := Read(c.series[s], i);
        if read.Some? && read.value > 0.0 {
          tot := tot + read.value;
        }
      }
      if tot > maxTotal {
        maxTotal := tot;
      }
    }
  }

  /** The stacked branch of the range computation, then the stream's own. */
  method ComputeRanges(c: Chart) returns (l: Range, r: Range)
    ensures l == AxisRange(c, false) && r == AxisRange(c, true)
  {
    l, r := Unseen, Unseen;
    for i := 0 to c.maxLen
      invariant l == ScanTo(c, false, i) && r == ScanTo(c, true, i)
    {
      l, r := ScanCategory(c, i, l, r);
    }
    if l.lo > 0.0 { l := l.(lo := 0.0); }
    if l.hi < 0.0 { l := l.(hi := 0.0); }
    if r.lo > 0.0 { r := r.(lo := 0.0); }
    if r.hi < 0.0 { r := r.(hi := 0.0); }
    if c.stream {
      var maxTotal := StreamTotal(c);
      if maxTotal <= 0.0 {
        maxTotal := 1.0;
      }
      l := Range(l.seen, -maxTotal / 2.0, maxTotal / 2.0);
    }
    l := AddOverlays(c, false, l);
    r := AddOverlays(c, true, r);
    if !c.stream {
      l, r := Anchor(l), Anchor(r);
    }
  }

  // ---------------------------------------------------------------- the layers

  /** The two boundaries of a layer, one value per category. */
  datatype Layer = Layer(right: bool, top: seq<real>, bottom: seq<real>)

  /** Stream centering: -total/2, otherwise 0. */
  function Shift(c: Chart, i: nat): (o: real) {
    if c.stream then -Total(c, i) / 2.0 else 0.0
  }

  /** What the boundaries of layer s must be. */
  ghost predicate IsLayer(c: Chart, s: nat, layer: Layer)
    requires s < |c.series|
  {
    && layer.right == OnRight(c, s)
    && |layer.top| == |layer.bottom| == c.maxLen
    && (forall i :: 0 <= i < c.maxLen ==> layer.bottom[i] == Height(c, layer.right, s, i) + Shift(c, i))
    && (forall i :: 0 <= i < c.maxLen ==> layer.top[i] == Height(c, layer.right, s + 1, i) + Shift(c, i))
  }

  ghost predicate Sums(c: Chart, right: bool, s: nat, cum: seq<real>)
    requires s <= |c.series|
  {
    |cum| == c.maxLen && forall i :: 0 <= i < c.maxLen ==> cum[i] == Height(c, right, s, i)
  }

  /** The offsets of the stream, computed once before drawing. */
  method StreamOffsets(c: Chart) returns (off: seq<real>)
    ensures |off| == c.maxLen && forall i :: 0 <= i < c.maxLen ==> off[i] == Shift(c, i)
  {
    off := [];
    for i := 0 to c.maxLen
      invariant |off| == i && forall j :: 0 <= j < i ==> off[j] == Shift(c, j)
    {
      var tot := 0.0;
      if c.stream {
        for s := 0 to |c.series|
          invariant tot == Height(c, false, s, i)
        {
          var read := Read(c.series[s], i);
          if read.Some? && read.value > 0.0 {
            tot := tot + read.value;
          }
        }
      }
      off := off + [if c.stream then -tot / 2.0 else 0.0];
    }
  }

  /** One layer on the running sums of its axis: top at cum + v, bottom at cum, then cum += v. */
  method DrawLayer(c: Chart, s: nat, off: seq<real>, cum0: seq<real>) returns (layer: Layer, cum: seq<real>)
    requires s < |c.series| && Sums(c, OnRight(c, s), s, cum0)
    requires |off| == c.maxLen && forall i :: 0 <= i < c.maxLen ==> off[i] == Shift(c, i)
    ensures IsLayer(c, s, layer)
    ensures Sums(c, OnRight(c, s), s + 1, cum)
  {
    var right := c.secondaryY && !c.stream && c.series[s].rightAxis;
    var top, bottom := [], [];
    cum := cum0;
    for i := 0 to c.maxLen
      invariant |top| == |bottom| == i && |cum| == c.maxLen
      invariant forall j :: 0 <= j < i ==> bottom[j] == Height(c, right, s, j) + Shift(c, j)
      invariant forall j :: 0 <= j < i ==> top[j] == Height(c, right, s + 1, j) + Shift(c, j)
      invariant forall j :: 0 <= j < i ==> cum[j] == Height(c, right, s + 1, j)
      invariant forall j :: i <= j < c.maxLen ==> cum[j] == Height(c, right, s, j)
    {
      var read := Read(c.series[s], i);
      var v := if read.None? then 0.0 else read.value;
      if c.stream && v < 0.0 {
        v := 0.0;
      }
      top := top + [cum[i] + v + off[i]];
      bottom := bottom + [cum[i] + off[i]];
      cum := cum[i := cum[i] + v];
    }
    layer := Layer(right, top, bottom);
  }

  lemma {:induction false} OtherAxisKeeps(c: Chart, right: bool, s: nat, cum: seq<real>)
    requires s < |c.series| && Sums(c, right, s, cum) && !OnAxis(c, right, s)
    ensures Sums(c, right, s + 1, cum)
  {
  }

  /** The stacked draw loop: two sets of running sums, one per axis. */
  method DrawLayers(c: Chart) returns (layers: seq<Layer>)
    ensures |layers| == |c.series|
    ensures forall s :: 0 <= s < |layers| ==> IsLayer(c, s, layers[s])
  {
    var off := StreamOffsets(c);
    layers := [];
    var cumL := seq(c.maxLen, _ => 0.0);
    var cumR := cumL;
    for s := 0 to |c.series|
      invariant |layers| == s && forall t :: 0 <= t < s ==> IsLayer(c, t, layers[t])
      invariant Sums(c, false, s, cumL) && Sums(c, true, s, cumR)
    {
      var layer;
      if OnRight(c, s) {
        layer, cumR := DrawLayer(c, s, off, cumR);
        OtherAxisKeeps(c, false, s, cumL);
      } else {
        layer, cumL := DrawLayer(c, s, off, cumL);
        OtherAxisKeeps(c, true, s, cumR);
      }
      layers := layers + [layer];
    }
  }

  // ---------------------------------------------------------------- the scan covers the drawing

  lemma {:induction false} ScanSeriesGrows(c: Chart, right: bool, i: nat, s: nat, r: Range, v: real)
    requires s <= |c.series| && r.seen && Inside(v, r)
    ensures ScanSeries(c, right, i, s, r).seen && Inside(v, ScanSeries(c, right, i, s, r))
  {
    if s > 0 {
      ScanSeriesGrows(c, right, i, s - 1, r, v);
    }
  }

  lemma {:induction false} ScanGrows(c: Chart, right: bool, i: nat, n: nat, v: real)
    requires i <= n && ScanTo(c, right, i).seen && Inside(v, ScanTo(c, right, i))
    ensures ScanTo(c, right, n).seen && Inside(v, ScanTo(c, right, n))
  {
    if i < n {
      ScanGrows(c, right, i, n - 1, v);
      ScanSeriesGrows(c, right, n - 1, |c.series|, ScanTo(c, right, n - 1), v);
    }
  }

  /** Every height of the stack is 0 or was put into the range by the scan of its category. */
  lemma {:induction false} HeightScanned(c: Chart, right: bool, i: nat, s: nat, r: Range)
    requires s <= |c.series|
    ensures Height(c, right, s, i) == 0.0
            || (ScanSeries(c, right, i, s, r).seen && Inside(Height(c, right, s, i), ScanSeries(c, right, i, s, r)))
  {
    if s > 0 {
      HeightScanned(c, right, i, s - 1, r);
    }
  }

  /** Scanning more series of the category keeps what the first s put in. */
  lemma {:induction false} ScanSeriesLater(c: Chart, right: bool, i: nat, s: nat, n: nat, r: Range, v: real)
    requires s <= n <= |c.series|
    requires ScanSeries(c, right, i, s, r).seen && Inside(v, ScanSeries(c, right, i, s, r))
    ensures ScanSeries(c, right, i, n, r).seen && Inside(v, ScanSeries(c, right, i, n, r))
  {
    if s < n {
      ScanSeriesLater(c, right, i, s, n - 1, r, v);
    }
  }

  lemma {:induction false} HeightInRange(c: Chart, right: bool, s: nat, i: nat)
    requires s <= |c.series| && i < c.maxLen && !c.stream
    ensures Inside(Height(c, right, s, i), StackRange(c, right))
    ensures Height(c, right, s, i) == 0.0 || StackRange(c, right).seen
  {
    var h, r := Height(c, right, s, i), ScanTo(c, right, i);
    HeightScanned(c, right, i, s, r);
    if h != 0.0 {
      ScanSeriesLater(c, right, i, s, |c.series|, r, h);
      ScanGrows(c, right, i + 1, c.maxLen, h);
    }
  }

  lemma {:induction false} StreamHeight(c: Chart, s: nat, n: nat, i: nat)
    requires c.stream && s <= n <= |c.series|
    ensures 0.0 <= Height(c, false, s, i) <= Height(c, false, n, i)
  {
    if n > 0 {
      if s < n {
        StreamHeight(c, s, n - 1, i);
      } else {
        StreamHeight(c, s - 1, n - 1, i);
      }
    }
  }

  lemma {:induction false} MaxTotalIsMax(c: Chart, i: nat, n: nat)
    requires i < n
    ensures Total(c, i) <= MaxTotal(c, n)
  {
    if i < n - 1 {
      MaxTotalIsMax(c, i, n - 1);
    }
  }

  lemma {:induction false} OverlaidGrows(c: Chart, right: bool, n: nat, r: Range, v: real)
    requires n <= |c.overlays| && r.seen && Inside(v, r)
    ensures Overlaid(c, right, n, r).seen && Inside(v, Overlaid(c, right, n, r))
  {
    if n > 0 {
      OverlaidGrows(c, right, n - 1, r, v);
      var o := c.overlays[n - 1];
      OverlayValuesGrow(o.values, Limit(|o.values|, c.maxLen), Overlaid(c, right, n - 1, r), v);
    }
  }

  lemma {:induction false} ScanSeesNumbers(c: Chart, right: bool, i: nat, s: nat, r: Range)
    requires s <= |c.series|
    ensures !ScanSeries(c, right, i, s, r).seen ==> !r.seen && Height(c, right, s, i) == 0.0
  {
    if s > 0 {
      ScanSeesNumbers(c, right, i, s - 1, r);
    }
  }

  lemma {:induction false} NothingSeen(c: Chart, right: bool, i: nat, n: nat)
    requires i < n && !ScanTo(c, right, n).seen
    ensures Height(c, right, |c.series|, i) == 0.0
  {
    ScanSeesNumbers(c, right, n - 1, |c.series|, ScanTo(c, right, n - 1));
    if i < n - 1 {
      NothingSeen(c, right, i, n - 1);
    }
  }

  lemma {:induction false} StreamInStackRange(c: Chart, s: nat, i: nat)
    requires c.stream && s <= |c.series| && i < c.maxLen
    ensures Inside(Height(c, false, s, i) + Shift(c, i), StackRange(c, false))
  {
    StreamHeight(c, s, |c.series|, i);
    MaxTotalIsMax(c, i, c.maxLen);
  }

  lemma {:induction false} BoundaryInside(c: Chart, right: bool, s: nat, i: nat)
    requires s <= |c.series| && i < c.maxLen && (c.stream ==> !right)
    requires c.stream ==> ScanTo(c, false, c.maxLen).seen
    ensures Inside(Height(c, right, s, i) + Shift(c, i), AxisRange(c, right))
  {
    var v := Height(c, right, s, i) + Shift(c, i);
    var r := StackRange(c, right);
    if c.stream {
      StreamInStackRange(c, s, i);
    } else {
      HeightInRange(c, right, s, i);
    }
    if r.seen {
      OverlaidGrows(c, right, |c.overlays|, r, v);
    }
  }

  // ---------------------------------------------------------------- streams of gaps

  ghost predicate NumberAt(c: Chart, s: nat, i: nat) {
    s < |c.series| && Read(c.series[s], i).Some?
  }

  /** No series holds a number at any category. */
  ghost predicate AllGaps(c: Chart) {
    forall s: nat, i: nat :: i < c.maxLen ==> !NumberAt(c, s, i)
  }

  lemma {:induction false} ScanSeriesSees(c: Chart, i: nat, s: nat, r: Range)
    requires c.stream && s <= |c.series|
    ensures ScanSeries(c, false, i, s, r).seen <==> r.seen || exists t :: 0 <= t < s && NumberAt(c, t, i)
  {
    if s > 0 {
      ScanSeriesSees(c, i, s - 1, r);
      assert NumberAt(c, s - 1, i) <==> Read(c.series[s - 1], i).Some?;
    }
  }

  /** The scan of a stream sees nothing exactly when there is nothing. */
  lemma {:induction false} ScanSees(c: Chart, n: nat)
    requires c.stream
    ensures ScanTo(c, false, n).seen <==> exists s: nat, i: nat :: i < n && NumberAt(c, s, i)
  {
    if n > 0 {
      ScanSees(c, n - 1);
      ScanSeriesSees(c, n - 1, |c.series|, ScanTo(c, false, n - 1));
    }
  }

  ghost predicate OverlaysHaveNumber(c: Chart, n: nat) {
    exists o :: 0 <= o < n && o < |c.overlays| && SomeNumber(c.overlays[o].values, c.maxLen)
  }

  ghost predicate OverlaysHaveLow(c: Chart, n: nat) {
    exists o :: 0 <= o < n && o < |c.overlays| && SomeLow(c.overlays[o].values, c.maxLen)
  }

  ghost predicate OverlaysHaveHigh(c: Chart, n: nat) {
    exists o :: 0 <= o < n && o < |c.overlays| && SomeHigh(c.overlays[o].values, c.maxLen)
  }

  /**
    Among the overlay values that take part in the range there is no number, or one that
    is not above zero and one that is not below.
  */
  ghost predicate OverlaysReachZero(c: Chart) {
    var n := |c.overlays|;
    OverlaysHaveNumber(c, n) ==> OverlaysHaveLow(c, n) && OverlaysHaveHigh(c, n)
  }

  lemma {:induction false} LimitIsEnough(values: seq<Option<real>>, m: nat)
    ensures SomeNumber(values, Limit(|values|, m)) <==> SomeNumber(values, m)
    ensures SomeLow(values, Limit(|values|, m)) <==> SomeLow(values, m)
    ensures SomeHigh(values, Limit(|values|, m)) <==> SomeHigh(values, m)
  {
  }

  /** Where the overlays take a range that nothing had been seen for. */
  lemma {:induction false} OverlaidReach(c: Chart, n: nat, r: Range)
    requires c.stream && n <= |c.overlays| && !r.seen
    ensures
      var q := Overlaid(c, false, n, r);
      && (q.seen <==> OverlaysHaveNumber(c, n))
      && (!q.seen ==> q == r)
      && (q.seen ==> (q.lo <= 0.0 <==> OverlaysHaveLow(c, n)) && (q.hi >= 0.0 <==> OverlaysHaveHigh(c, n)))
  {
    if n > 0 {
      OverlaidReach(c, n - 1, r);
      var v := c.overlays[n - 1].values;
      OverlayValuesReach(v, Limit(|v|, c.maxLen), Overlaid(c, false, n - 1, r));
      LimitIsEnough(v, c.maxLen);
      assert OverlaysHaveNumber(c, n) <==> OverlaysHaveNumber(c, n - 1) || SomeNumber(v, c.maxLen);
      assert OverlaysHaveLow(c, n) <==> OverlaysHaveLow(c, n - 1) || SomeLow(v, c.maxLen);
      assert OverlaysHaveHigh(c, n) <==> OverlaysHaveHigh(c, n - 1) || SomeHigh(v, c.maxLen);
    }
  }

  /**
    A stream without a single number draws its layers on the zero line. With an overlay
    the unseen range is replaced by the overlay's, and not anchored again: the layers
    are inside exactly when the overlays reach zero. (Without a number anywhere nothing
    is drawn at all.)
  */
  lemma {:induction false} AllGapStream(c: Chart, s: nat, layer: Layer, i: nat)
    requires s < |c.series| && IsLayer(c, s, layer) && i < c.maxLen
    requires c.stream && AllGaps(c)
    ensures layer.top[i] == layer.bottom[i] == 0.0
    ensures Inside(0.0, AxisRange(c, false)) <==> OverlaysReachZero(c)
  {
    ScanSees(c, c.maxLen);
    NothingSeen(c, false, i, c.maxLen);
    StreamHeight(c, s, |c.series|, i);
    StreamHeight(c, s + 1, |c.series|, i);
    NoTotals(c, c.maxLen);
    OverlaidReach(c, |c.overlays|, StackRange(c, false));
  }

  /**
    For every stacked or stream chart, both boundaries of every layer lie inside the
    range that the separate scan computed for the layer's axis, gaps included, with one
    exception: a stream of nothing but gaps under overlays that do not reach zero.
  */
  lemma {:induction false} LayersInsideRange(c: Chart, s: nat, layer: Layer, i: nat)
    requires s < |c.series| && IsLayer(c, s, layer) && i < c.maxLen
    ensures
      (Inside(layer.bottom[i], AxisRange(c, layer.right)) && Inside(layer.top[i], AxisRange(c, layer.right)))
      <==> !(c.stream && AllGaps(c) && !OverlaysReachZero(c))
  {
    if c.stream && AllGaps(c) {
      AllGapStream(c, s, layer, i);
    } else {
      if c.stream {
        ScanSees(c, c.maxLen);
      }
      BoundaryInside(c, layer.right, s, i);
      BoundaryInside(c, layer.right, s + 1, i);
    }
  }

  /** Two series of gaps and an overlay at 5: the layers at 0 are outside the range [5, 5]. */
  lemma {:induction false} AllGapStreamExample()
    ensures
      var gaps := Series([None], false);
      var c := Chart([gaps, gaps], [Overlay([Some(5.0)], false)], 1, false, true);
      AxisRange(c, false) == Range(true, 5.0, 5.0) && Height(c, false, 1, 0) + Shift(c, 0) == 0.0
  {
    var gaps := Series([None], false);
    var c := Chart([gaps, gaps], [Overlay([Some(5.0)], false)], 1, false, true);
    assert ScanSeries(c, false, 0, 1, Unseen) == Unseen;
    assert ScanTo(c, false, 1) == Unseen;
    var r := StackRange(c, false);
    assert OverlayValues(c.overlays[0].values, 0, r) == r;
    assert Overlaid(c, false, 0, r) == r;
    assert Height(c, false, 1, 0) == 0.0;
  }

  lemma {:induction false} NoTotals(c: Chart, n: nat)
    requires c.stream && n <= c.maxLen && !ScanTo(c, false, c.maxLen).seen
    ensures MaxTotal(c, n) == 0.0
  {
    if n > 0 {
      NoTotals(c, n - 1);
      NothingSeen(c, false, n - 1, c.maxLen);
    }
  }

  // ---------------------------------------------------------------- tiling

  lemma {:induction false} HeightSkipsOtherAxis(c: Chart, right: bool, s: nat, t: nat, i: nat)
    requires s <= t <= |c.series|
    requires forall k :: s <= k < t ==> !OnAxis(c, right, k)
    ensures Height(c, right, t, i) == Height(c, right, s, i)
  {
    if s < t {
      HeightSkipsOtherAxis(c, right, s, t - 1, i);
    }
  }

  /** A layer's top is point for point the bottom of the next layer on its axis. */
  lemma {:induction false} LayersTile(c: Chart, s: nat, t: nat, a: Layer, b: Layer)
    requires s < t < |c.series| && IsLayer(c, s, a) && IsLayer(c, t, b)
    requires a.right == b.right && forall k :: s < k < t ==> !OnAxis(c, a.right, k)
    ensures a.top == b.bottom
  {
    forall i | 0 <= i < c.maxLen ensures a.top[i] == b.bottom[i] {
      HeightSkipsOtherAxis(c, a.right, s + 1, t, i);
    }
  }

  /** A stream's stack spans exactly -T/2 to T/2 at each category. */
  lemma {:induction false} StreamIsCentred(c: Chart, first: Layer, last: Layer, i: nat)
    requires c.stream && |c.series| > 0 && i < c.maxLen
    requires IsLayer(c, 0, first) && IsLayer(c, |c.series| - 1, last)
    ensures first.bottom[i] == -Total(c, i) / 2.0 && last.top[i] == Total(c, i) / 2.0
    ensures last.top[i] - first.bottom[i] == Total(c, i)
  {
  }

  /** Without a secondary axis, and in a stream, every layer is on the left one; otherwise where its series says. */
  lemma {:induction false} LayerAxis(c: Chart, s: nat, layer: Layer)
    requires s < |c.series| && IsLayer(c, s, layer)
    ensures !c.secondaryY || c.stream ==> !layer.right
    ensures c.secondaryY && !c.stream ==> layer.right == c.series[s].rightAxis
  {
  }

  /** A layer is as thick as its value: nothing for a gap, and in a stream for a negative one. */
  lemma {:induction false} LayerThickness(c: Chart, s: nat, layer: Layer, i: nat)
    requires s < |c.series| && IsLayer(c, s, layer) && i < c.maxLen
    ensures
      var v := Read(c.series[s], i);
      layer.top[i] - layer.bottom[i] == if v.None? || (c.stream && v.value < 0.0) then 0.0 else v.value
  {
    assert OnAxis(c, layer.right, s);
  }

  /** The lowest layer of an axis stands on the zero line, unless the stack is centred. */
  lemma {:induction false} FirstLayerOnZero(c: Chart, s: nat, layer: Layer, i: nat)
    requires s < |c.series| && IsLayer(c, s, layer) && i < c.maxLen && !c.stream
    requires forall k :: 0 <= k < s ==> !OnAxis(c, layer.right, k)
    ensures layer.bottom[i] == 0.0
  {
    HeightSkipsOtherAxis(c, layer.right, 0, s, i);
  }

  // ---------------------------------------------------------------- overlays, and the ends of the range

  predicate OverlayOn(c: Chart, right: bool, o: Overlay) { (c.secondaryY && !c.stream && o.rightAxis) == right }

  lemma {:induction false} OverlaidSeen(c: Chart, right: bool, n: nat, o: nat, i: nat, r: Range)
    requires o < n <= |c.overlays| && OverlayOn(c, right, c.overlays[o])
    requires i < |c.overlays[o].values| && i < c.maxLen && c.overlays[o].values[i].Some?
    ensures Overlaid(c, right, n, r).seen && Inside(c.overlays[o].values[i].value, Overlaid(c, right, n, r))
  {
    var v := c.overlays[n - 1].values;
    if o == n - 1 {
      OverlaySeen(v, Limit(|v|, c.maxLen), i, Overlaid(c, right, n - 1, r));
    } else {
      OverlaidSeen(c, right, n - 1, o, i, r);
      OverlayValuesGrow(v, Limit(|v|, c.maxLen), Overlaid(c, right, n - 1, r), c.overlays[o].values[i].value);
    }
  }

  /** Every overlay value over a category lies inside the range of its axis. */
  lemma {:induction false} OverlaysInsideRange(c: Chart, right: bool, o: nat, i: nat)
    requires o < |c.overlays| && OverlayOn(c, right, c.overlays[o])
    requires i < |c.overlays[o].values| && i < c.maxLen && c.overlays[o].values[i].Some?
    ensures AxisRange(c, right).seen && Inside(c.overlays[o].values[i].value, AxisRange(c, right))
  {
    OverlaidSeen(c, right, |c.overlays|, o, i, StackRange(c, right));
  }

  ghost predicate OverlayHas(c: Chart, right: bool, v: real) {
    exists o, i :: 0 <= o < |c.overlays| && OverlayOn(c, right, c.overlays[o])
                   && 0 <= i < |c.overlays[o].values| && i < c.maxLen && c.overlays[o].values[i] == Some(v)
  }

  /**
    A value that a chart has on an axis: an overlay's; on a stack the zero line or the
    height of a layer; in a stream half of a total, or half of 1 if all totals are 0.
  */
  ghost predicate Attained(c: Chart, right: bool, v: real) {
    || OverlayHas(c, right, v)
    || (!c.stream && v == 0.0)
    || (!c.stream && exists s: nat, i: nat :: s <= |c.series| && i < c.maxLen && v == Height(c, right, s, i))
    || (c.stream && exists i: nat :: i < c.maxLen && Total(c, i) > 0.0 && (v == Total(c, i) / 2.0 || v == -Total(c, i) / 2.0))
    || (c.stream && (v == 0.5 || v == -0.5) && forall i: nat :: i < c.maxLen ==> Total(c, i) <= 0.0)
  }

  ghost predicate EndsAttained(c: Chart, right: bool, r: Range) {
    r.seen ==> Attained(c, right, r.lo) && Attained(c, right, r.hi)
  }

  lemma {:induction false} SeriesAttained(c: Chart, right: bool, i: nat, s: nat, r: Range)
    requires !c.stream && i < c.maxLen && s <= |c.series| && EndsAttained(c, right, r)
    ensures EndsAttained(c, right, ScanSeries(c, right, i, s, r))
  {
    if s > 0 {
      SeriesAttained(c, right, i, s - 1, r);
      assert Attained(c, right, Height(c, right, s, i));
    }
  }

  lemma {:induction false} ScanAttained(c: Chart, right: bool, n: nat)
    requires !c.stream && n <= c.maxLen
    ensures EndsAttained(c, right, ScanTo(c, right, n))
  {
    if n > 0 {
      ScanAttained(c, right, n - 1);
      SeriesAttained(c, right, n - 1, |c.series|, ScanTo(c, right, n - 1));
    }
  }

  /** The tallest total is one of the totals, if any is positive. */
  lemma {:induction false} MaxTotalAttained(c: Chart, n: nat)
    ensures MaxTotal(c, n) >= 0.0
    ensures MaxTotal(c, n) > 0.0 ==> exists i: nat :: i < n && Total(c, i) == MaxTotal(c, n)
  {
    if n > 0 {
      MaxTotalAttained(c, n - 1);
    }
  }

  lemma {:induction false} StreamAttained(c: Chart)
    requires c.stream
    ensures EndsAttained(c, false, StackRange(c, false))
  {
    var m := MaxTotal(c, c.maxLen);
    MaxTotalAttained(c, c.maxLen);
    if m <= 0.0 {
      forall i: nat | i < c.maxLen ensures Total(c, i) <= 0.0 {
        MaxTotalIsMax(c, i, c.maxLen);
      }
    }
  }

  lemma {:induction false} OverlayAttained(c: Chart, right: bool, o: nat, n: nat, r: Range)
    requires o < |c.overlays| && OverlayOn(c, right, c.overlays[o])
    requires n <= |c.overlays[o].values| && n <= c.maxLen && EndsAttained(c, right, r)
    ensures EndsAttained(c, right, OverlayValues(c.overlays[o].values, n, r))
  {
    if n > 0 {
      OverlayAttained(c, right, o, n - 1, r);
      var v := c.overlays[o].values[n - 1];
      if v.Some? {
        assert OverlayHas(c, right, v.value);
      }
    }
  }

  lemma {:induction false} OverlaidAttained(c: Chart, right: bool, n: nat, r: Range)
    requires n <= |c.overlays| && EndsAttained(c, right, r)
    ensures EndsAttained(c, right, Overlaid(c, right, n, r))
  {
    if n > 0 {
      OverlaidAttained(c, right, n - 1, r);
      if OverlayOn(c, right, c.overlays[n - 1]) {
        OverlayAttained(c, right, n - 1, Limit(|c.overlays[n - 1].values|, c.maxLen), Overlaid(c, right, n - 1, r));
      }
    }
  }

  /** The range of an axis is no wider than the chart: both its ends are values the chart has there. */
  lemma {:induction false} RangeIsTight(c: Chart, right: bool)
    requires c.stream ==> !right
    ensures EndsAttained(c, right, AxisRange(c, right))
  {
    if c.stream {
      StreamAttained(c);
    } else {
      ScanAttained(c, right, c.maxLen);
    }
    OverlaidAttained(c, right, |c.overlays|, StackRange(c, right));
  }
}
