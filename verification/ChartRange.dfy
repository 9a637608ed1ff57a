/** The running range of an axis, as the range scans of the charts keep it. */
module ChartRange {
  import opened Common

  datatype Range = Range(seen: bool, lo: real, hi: real)

  const Unseen := Range(false, 0.0, 0.0)

  predicate Inside(v: real, r: Range) { r.lo <= v <= r.hi }

  /** fastchart_range_update. */
  function Update(r: Range, v: real): (q: Range)
    ensures q.seen && Inside(v, q)
    ensures r.seen ==> q.lo <= r.lo && r.hi <= q.hi
  {
    if !r.seen then Range(true, v, v)
    else Range(true, if v < r.lo then v else r.lo, if v > r.hi then v else r.hi)
  }

  /** A pair of values at once, the lower one first. */
  function UpdatePair(r: Range, lo: real, hi: real): (q: Range)
    ensures q.seen && q.lo <= lo && hi <= q.hi
    ensures r.seen ==> q.lo <= r.lo && r.hi <= q.hi
  {
    if !r.seen then Range(true, lo, hi)
    else Range(true, if lo < r.lo then lo else r.lo, if hi > r.hi then hi else r.hi)
  }

  /** The zero line is always part of a linear axis. */
  function Anchor(r: Range): (q: Range) {
    Range(r.seen, if r.lo > 0.0 then 0.0 else r.lo, if r.hi < 0.0 then 0.0 else r.hi)
  }

  /** A combo overlay takes part over at most the chart's categories. */
  function Limit(n: nat, categories: nat): (m: nat)
    ensures m <= n
  {
    if n < categories then n else categories
  }

  function OverlayValues(values: seq<Option<real>>, n: nat, r: Range): (q: Range)
    requires n <= |values|
  {
    if n == 0 then r
    else
      var before := OverlayValues(values, n - 1, r);
      if values[n - 1].Some? then Update(before, values[n - 1].value) else before
  }

  lemma {:induction false} OverlayValuesGrow(values: seq<Option<real>>, n: nat, r: Range, v: real)
    requires n <= |values| && r.seen && Inside(v, r)
    ensures OverlayValues(values, n, r).seen && Inside(v, OverlayValues(values, n, r))
  {
    if n > 0 {
      OverlayValuesGrow(values, n - 1, r, v);
    }
  }

  /** A number of an overlay is inside what the overlay makes of a range. */
  lemma {:induction false} OverlaySeen(values: seq<Option<real>>, n: nat, i: nat, r: Range)
    requires i < n <= |values| && values[i].Some?
    ensures OverlayValues(values, n, r).seen && Inside(values[i].value, OverlayValues(values, n, r))
  {
    if i < n - 1 {
      OverlaySeen(values, n - 1, i, r);
    }
  }

  ghost predicate SomeNumber(values: seq<Option<real>>, n: nat) {
    exists i :: 0 <= i < n && i < |values| && values[i].Some?
  }

  ghost predicate SomeLow(values: seq<Option<real>>, n: nat) {
    exists i :: 0 <= i < n && i < |values| && values[i].Some? && values[i].value <= 0.0
  }

  ghost predicate SomeHigh(values: seq<Option<real>>, n: nat) {
    exists i :: 0 <= i < n && i < |values| && values[i].Some? && values[i].value >= 0.0
  }

  /** Which side of zero an overlay pulls a range to. */
  lemma {:induction false} OverlayValuesReach(values: seq<Option<real>>, n: nat, r: Range)
    requires n <= |values|
    ensures
      var q := OverlayValues(values, n, r);
      && (q.seen <==> r.seen || SomeNumber(values, n))
      && (!q.seen ==> q == r)
      && (q.seen ==> (q.lo <= 0.0 <==> (r.seen && r.lo <= 0.0) || SomeLow(values, n)))
      && (q.seen ==> (q.hi >= 0.0 <==> (r.seen && r.hi >= 0.0) || SomeHigh(values, n)))
  {
    if n > 0 {
      OverlayValuesReach(values, n - 1, r);
      assert SomeNumber(values, n) <==> SomeNumber(values, n - 1) || values[n - 1].Some?;
      assert SomeLow(values, n) <==> SomeLow(values, n - 1) || (values[n - 1].Some? && values[n - 1].value <= 0.0);
      assert SomeHigh(values, n) <==> SomeHigh(values, n - 1) || (values[n - 1].Some? && values[n - 1].value >= 0.0);
    }
  }

  /** The loop over one overlay's values. */
  method AddOverlay(values: seq<Option<real>>, categories: nat, r: Range) returns (q: Range)
    ensures q == OverlayValues(values, Limit(|values|, categories), r)
  {
    q := r;
    var lim := if |values| < categories then |values| else categories;
    for i := 0 to lim
      invariant q == OverlayValues(values, i, r)
    {
      if values[i].Some? {
        q := Update(q, values[i].value);
      }
    }
  }
}
