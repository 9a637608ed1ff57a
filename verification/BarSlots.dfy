/**
  Vertical bar charts: the slots that categories get on the axis and the bars inside a
  slot. Pixels are integers.

  A slot begins where the exact fraction of the axis is cut to a pixel, so every result
  about slots is one about quotients: products of the quotient bound what was divided,
  and a number with those bounds is the quotient. The lemmas at the start say that once,
  and the others keep to them.
*/
module BarSlots {
  // ---------------------------------------------------------------- arithmetic

  lemma {:induction false} MulNonNegative(d: nat, n: nat)
    ensures d * n >= 0
  {
  }

  lemma {:induction false} MulSplit(r: int, d: int, n: int)
    ensures (r + 1 + d) * n == r * n + n + d * n
  {
  }

  lemma {:induction false} MulGap(q: int, r: int, n: nat)
    ensures q > r ==> q * n >= r * n + n
  {
    if q > r {
      MulNonNegative(q - r - 1, n);
      MulSplit(r, q - r - 1, n);
    }
  }

  lemma {:induction false} DivBounds(a: int, n: nat)
    requires n > 0
    ensures a / n * n <= a < a / n * n + n
  {
  }

  /** A quotient is the only number with these bounds. */
  lemma {:induction false} DivUnique(a: int, n: nat, q: int)
    requires n > 0 && q * n <= a < q * n + n
    ensures a / n == q
  {
    DivBounds(a, n);
    MulGap(q, a / n, n);
    MulGap(a / n, q, n);
  }

  lemma {:induction false} DivMonotone(a: int, b: int, n: nat)
    requires a <= b && n > 0
    ensures a / n <= b / n
  {
    DivBounds(a, n);
    DivBounds(b, n);
    MulGap(a / n, b / n, n);
  }

  // ---------------------------------------------------------------- slots

  /** Where slot i of n begins; (int) of a non-negative quotient is its floor. */
  function Edge(lo: int, hi: int, i: nat, n: nat): (x: int)
    requires lo <= hi && n > 0
  {
    lo + (hi - lo) * i / n
  }

  lemma {:induction false} EdgesRise(lo: int, hi: int, i: nat, j: nat, n: nat)
    requires lo <= hi && i <= j && n > 0
    ensures Edge(lo, hi, i, n) <= Edge(lo, hi, j, n)
  {
    var span := hi - lo;
    assert span * j == span * i + span * (j - i);
    DivMonotone(span * i, span * j, n);
  }

  lemma {:induction false} EdgesSpan(lo: int, hi: int, n: nat)
    requires lo <= hi && n > 0
    ensures Edge(lo, hi, 0, n) == lo && Edge(lo, hi, n, n) == hi
  {
    DivUnique((hi - lo) * n, n, hi - lo);
    DivUnique((hi - lo) * 0, n, 0);
  }

  predicate InSlot(lo: int, hi: int, n: nat, i: nat, x: int)
    requires lo <= hi && n > 0
  {
    Edge(lo, hi, i, n) <= x < Edge(lo, hi, i + 1, n)
  }

  /** The slot a pixel falls into, searching from the right. */
  lemma {:induction false} SlotOf(lo: int, hi: int, n: nat, x: int, k: nat) returns (i: nat)
    requires lo <= hi && 0 < k <= n && lo <= x < Edge(lo, hi, k, n)
    ensures i < k && InSlot(lo, hi, n, i, x)
  {
    if Edge(lo, hi, k - 1, n) <= x {
      i := k - 1;
    } else {
      EdgesSpan(lo, hi, n);
      i := SlotOf(lo, hi, n, x, k - 1);
    }
  }

  /** Ranges that follow one another hold no value in common. */
  lemma {:induction false} RangesApart(i: nat, j: nat, a: int, a': int, b: int, b': int, x: int)
    requires (i < j ==> a' <= b) && (j < i ==> b' <= a)
    requires a <= x < a' && b <= x < b'
    ensures i == j
  {
  }

  lemma {:induction false} EdgesFollow(lo: int, hi: int, i: nat, j: nat, n: nat)
    requires lo <= hi && n > 0
    ensures i < j ==> Edge(lo, hi, i + 1, n) <= Edge(lo, hi, j, n)
  {
    if i < j {
      EdgesRise(lo, hi, i + 1, j, n);
    }
  }

  lemma {:induction false} SlotsApart(lo: int, hi: int, n: nat, i: nat, j: nat, x: int)
    requires lo <= hi && n > 0 && InSlot(lo, hi, n, i, x) && InSlot(lo, hi, n, j, x)
    ensures i == j
  {
    EdgesFollow(lo, hi, i, j, n);
    EdgesFollow(lo, hi, j, i, n);
    RangesApart(i, j, Edge(lo, hi, i, n), Edge(lo, hi, i + 1, n), Edge(lo, hi, j, n), Edge(lo, hi, j + 1, n), x);
  }

  /** The slots partition the axis: every pixel of it is in exactly one slot. */
  lemma {:induction false} SlotsPartition(lo: int, hi: int, n: nat, x: int) returns (i: nat)
    requires lo <= x < hi && n > 0
    ensures i < n && InSlot(lo, hi, n, i, x)
    ensures forall j: nat :: InSlot(lo, hi, n, j, x) ==> j == i
  {
    EdgesSpan(lo, hi, n);
    i := SlotOf(lo, hi, n, x, n);
    forall j: nat | InSlot(lo, hi, n, j, x) ensures j == i {
      SlotsApart(lo, hi, n, i, j, x);
    }
  }

  /** fastchart_x_categorical_center: where the label of category i goes. */
  function Label(lo: int, hi: int, i: nat, n: nat): (x: int)
    requires lo <= hi && n > 0
  {
    lo + (hi - lo) * (2 * i + 1) / (2 * n)
  }

  lemma {:induction false} Distribute(p: int, q: int, n: int)
    ensures (p + q) * n == p * n + q * n
  {
  }

  /** Half of a sum, times twice the number. */
  lemma {:induction false} HalfTimesTwice(sum: int, n: nat)
    ensures sum / 2 * (2 * n) <= sum * n <= sum / 2 * (2 * n) + n
  {
    var m := sum / 2;
    Distribute(m, m, n);
    Distribute(m, m, 2 * n);
    Distribute(2 * m, sum - 2 * m, n);
    assert sum - 2 * m == 0 || sum - 2 * m == 1;
  }

  /** A quotient from bounds on what is divided. */
  lemma {:induction false} QuotientNear(a: int, w: nat, m: int)
    requires w > 0 && m * w <= a < m * w + w + w
    ensures 0 <= a / w - m <= 1
  {
    DivBounds(a, w);
    MulGap(m, a / w, w);
    Distribute(m, 1, w);
    MulGap(a / w, m + 1, w);
  }

  lemma {:induction false} MidNearLabel(n: nat, sum: int, a: int)
    requires n > 0 && a - 2 * n < sum * n <= a
    ensures 0 <= a / (2 * n) - sum / 2 <= 1
  {
    HalfTimesTwice(sum, n);
    QuotientNear(a, 2 * n, sum / 2);
  }

  /**
    No drift: at every category and for every number of them, the middle of the slot is
    less than a pixel before the exact centre, and its pixel is the label's or the one
    before it.
  */
  lemma {:induction false} SlotsDoNotDrift(lo: int, hi: int, i: nat, n: nat)
    requires lo <= hi && i < n
    ensures
      var sum := Edge(lo, hi, i, n) - lo + Edge(lo, hi, i + 1, n) - lo;
      && (hi - lo) * (2 * i + 1) - 2 * n < sum * n <= (hi - lo) * (2 * i + 1)
      && 0 <= Label(lo, hi, i, n) - lo - sum / 2 <= 1
  {
    var span := hi - lo;
    var b0, b1 := span * i / n, span * (i + 1) / n;
    DivBounds(span * i, n);
    DivBounds(span * (i + 1), n);
    assert span * i + span * (i + 1) == span * (2 * i + 1);
    assert b0 * n + b1 * n == (b0 + b1) * n;
    MidNearLabel(n, b0 + b1, span * (2 * i + 1));
  }

  // ---------------------------------------------------------------- bars

  datatype Slot = Slot(left: int, inner: nat, sub: nat, draw: nat, inset: nat)

  /** The thickness of a bar in its share of the slot. */
  function Thickness(sub: nat, pct: int): (d: nat)
    requires sub >= 1 && 1 <= pct <= 100
    ensures 1 <= d <= sub
  {
    PctFits(sub, pct);
    var d := (sub * pct + 50) / 100;
    if d < 1 then 1 else d
  }

  lemma {:induction false} PctFits(sub: nat, pct: int)
    requires 1 <= pct <= 100
    ensures 0 <= sub * pct <= sub * 100
  {
  }

  function Share(inner: nat, count: nat): (sub: nat)
    requires inner >= 1
    ensures sub >= 1
  {
    var wide := inner / (if count > 0 then count else 1);
    if wide < 1 then 1 else wide
  }

  /** The geometry of a slot that begins at b0 and is `slot` pixels wide. */
  function Geometry(b0: int, slot: nat, count: nat, pct: int): (g: Slot)
    requires 1 <= pct <= 100
    ensures g.inner >= 1 && 1 <= g.draw && g.inset + g.draw <= g.sub
    ensures g.left >= b0 + 1
    ensures slot >= 2 ==> g.left + g.inner <= b0 + slot
    ensures slot < 2 ==> g == Slot(b0 + 1, 1, 1, 1, 0)
  {
    var pad := if slot / 6 < 1 then 1 else slot / 6;
    var inner := if slot - 2 * pad < 1 then 1 else slot - 2 * pad;
    var sub := Share(inner, count);
    var draw := Thickness(sub, pct);
    assert inner == 1 ==> sub == 1 by {
      if inner == 1 && count > 1 {
        DivUnique(1, count, 0);
      }
    }
    Slot(b0 + pad, inner, sub, draw, (sub - draw) / 2)
  }

  /** fastchart_bar_slot_geom. */
  function SlotGeom(lo: int, hi: int, i: nat, n: nat, count: nat, pct: int): (g: Slot)
    requires lo <= hi && i < n && 1 <= pct <= 100
  {
    EdgesRise(lo, hi, i, i + 1, n);
    Geometry(Edge(lo, hi, i, n), Edge(lo, hi, i + 1, n) - Edge(lo, hi, i, n), count, pct)
  }

  /** The pixels of the bar of series s, first and last; nothing is drawn when last < first. */
  function BarFirst(g: Slot, s: nat): (x: int) { g.left + s * g.sub + g.inset }

  function BarLast(g: Slot, s: nat): (x: int) {
    var x1 := BarFirst(g, s) + g.draw - 1;
    if x1 > g.left + g.inner - 1 then g.left + g.inner - 1 else x1
  }

  predicate Drawn(g: Slot, s: nat) { BarLast(g, s) >= BarFirst(g, s) }

  lemma {:induction false} BarsApart(g: Slot, s: nat, t: nat)
    requires s < t && g.inset + g.draw <= g.sub
    ensures BarLast(g, s) < BarFirst(g, t)
  {
    MulGap(t, s, g.sub);
  }

  /** Bars of a slot never overlap, whatever the width and the number of series. */
  lemma {:induction false} BarsDisjoint(lo: int, hi: int, i: nat, n: nat, count: nat, pct: int, s: nat, t: nat)
    requires lo <= hi && i < n && 1 <= pct <= 100 && s < t
    ensures
      var g := SlotGeom(lo, hi, i, n, count, pct);
      BarLast(g, s) < BarFirst(g, t)
  {
    BarsApart(SlotGeom(lo, hi, i, n, count, pct), s, t);
  }

  lemma {:induction false} BarInside(b0: int, slot: nat, count: nat, pct: int, s: nat)
    requires 1 <= pct <= 100 && slot >= 2
    ensures
      var g := Geometry(b0, slot, count, pct);
      b0 <= BarFirst(g, s) && BarLast(g, s) < b0 + slot
  {
    var g := Geometry(b0, slot, count, pct);
    assert s * g.sub >= 0;
  }

  /**
    Every drawn bar lies inside its category's slot exactly when the slot is at least
    two pixels wide: a narrower one still gets one pixel of padding and a one-pixel bar,
    which falls into the next slot.
  */
  lemma {:induction false} BarsInsideSlot(lo: int, hi: int, i: nat, n: nat, count: nat, pct: int)
    requires lo <= hi && i < n && 1 <= pct <= 100
    ensures
      var g := SlotGeom(lo, hi, i, n, count, pct);
      var b0, b1 := Edge(lo, hi, i, n), Edge(lo, hi, i + 1, n);
      (forall s: nat :: Drawn(g, s) ==> b0 <= BarFirst(g, s) && BarLast(g, s) < b1) <==> b1 - b0 >= 2
  {
    EdgesRise(lo, hi, i, i + 1, n);
    var g := SlotGeom(lo, hi, i, n, count, pct);
    var b0, b1 := Edge(lo, hi, i, n), Edge(lo, hi, i + 1, n);
    if b1 - b0 >= 2 {
      forall s: nat ensures b0 <= BarFirst(g, s) && BarLast(g, s) < b1 {
        BarInside(b0, b1 - b0, count, pct, s);
      }
    } else {
      assert BarFirst(g, 0) == BarLast(g, 0) == b0 + 1;
    }
  }

  lemma {:induction false} ShareFits(inner: nat, count: nat)
    requires 1 <= count <= inner
    ensures count * Share(inner, count) <= inner
  {
    DivBounds(inner, count);
    MulGap(1, inner / count, count);
  }

  /** With room for a pixel each, every series gets its bar, uncut. */
  lemma {:induction false} EveryBarDrawn(b0: int, slot: nat, count: nat, pct: int, s: nat)
    requires 1 <= pct <= 100 && s < count <= Geometry(b0, slot, count, pct).inner
    ensures
      var g := Geometry(b0, slot, count, pct);
      Drawn(g, s) && BarLast(g, s) == BarFirst(g, s) + g.draw - 1
  {
    var g := Geometry(b0, slot, count, pct);
    ShareFits(g.inner, count);
    MulGap(count, s, g.sub);
  }

  /** Three pixels per category are enough for every slot, whatever the rounding. */
  lemma {:induction false} WideSpanWideSlots(lo: int, hi: int, i: nat, n: nat)
    requires i < n && hi - lo >= 3 * n
    ensures Edge(lo, hi, i + 1, n) - Edge(lo, hi, i, n) >= 3
  {
    var span := hi - lo;
    var q := span * i / n;
    assert span * (i + 1) == span * i + span;
    DivBounds(span * i, n);
    DivUnique(span * i + 3 * n, n, q + 3);
    DivMonotone(span * i + 3 * n, span * (i + 1), n);
  }

  /** The bar of series s stands in the s-th share of the slot, in its middle to the pixel. */
  lemma {:induction false} BarInItsShare(b0: int, slot: nat, count: nat, pct: int, s: nat)
    requires 1 <= pct <= 100
    ensures
      var g := Geometry(b0, slot, count, pct);
      var before := BarFirst(g, s) - (g.left + s * g.sub);
      var after := g.sub - g.draw - before;
      0 <= before <= after <= before + 1 && BarLast(g, s) < g.left + (s + 1) * g.sub
  {
    var g := Geometry(b0, slot, count, pct);
    Distribute(s, 1, g.sub);
  }

  lemma {:induction false} ShareIsFloor(inner: nat, count: nat)
    requires 1 <= count <= inner
    ensures count * Share(inner, count) <= inner < count * Share(inner, count) + count
  {
    DivBounds(inner, count);
    MulGap(1, inner / count, count);
  }

  lemma {:induction false} ThicknessIsNearest(sub: nat, pct: int)
    requires sub >= 1 && 1 <= pct <= 100
    ensures
      var d := Thickness(sub, pct);
      (d == 1 && sub * pct < 50) || sub * pct - 50 < 100 * d <= sub * pct + 50
  {
    PctFits(sub, pct);
  }

  /**
    How a slot is divided. A sixth of it, and at least a pixel, is left free on either
    side; what is left is shared out evenly among the series, to the pixel; a bar takes
    its percentage of the share, to the nearest pixel and at least one.
  */
  lemma {:induction false} BarProportions(b0: int, slot: nat, count: nat, pct: int)
    requires 1 <= pct <= 100 && slot >= 3
    ensures
      var g := Geometry(b0, slot, count, pct);
      var pad := g.left - b0;
      && (if slot < 12 then pad == 1 else 6 * pad <= slot < 6 * pad + 6)
      && g.inner == slot - 2 * pad
      && (count == 0 ==> g.sub == g.inner)
      && (1 <= count <= g.inner ==> count * g.sub <= g.inner < count * g.sub + count)
      && ((g.draw == 1 && g.sub * pct < 50) || g.sub * pct - 50 < 100 * g.draw <= g.sub * pct + 50)
  {
    var g := Geometry(b0, slot, count, pct);
    if 1 <= count <= g.inner {
      ShareIsFloor(g.inner, count);
    }
    ThicknessIsNearest(g.sub, pct);
  }
}
