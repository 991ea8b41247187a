/** The geometry of the bar chart (js/app.js:161-206): where each bar, its
    value label and its category label go on a w × h canvas. Only the
    numbers are modelled; the drawing calls themselves are not. */
module Chart {
  import opened Entries
  import opened Categories
  import opened Text

  const Margin: real := 20.0
  const Gap: real := 10.0
  const MinBarWidth: real := 20.0
  const NoDataText: string := "Nincs adat a grafikonhoz."

  /** The filled rectangle of a bar and the height of the value label
      written above it. */
  datatype Rect = Rect(top: real, height: real, valueTextY: real)

  /** One category's bar. `rect` is None when the computed height is not a
      finite number (every value divided by a maximum of 0), in which case
      the canvas draws neither the rectangle nor the value label. The
      category label is drawn right-aligned at (captionX, captionY). */
  datatype Bar = Bar(x: real, width: real, value: real, rect: Option<Rect>,
                     caption: string, captionX: real, captionY: real)

  /** What one call draws on the cleared canvas. */
  datatype Drawing = Placeholder(text: string, x: real, y: real) | Bars(bars: seq<Bar>)

  /** The position of a largest category total (the last one of several
      equal largest totals). */
  function MaxIndex(t: seq<Slot>): (i: nat)
    requires t != []
    ensures i < |t|
    ensures forall j :: 0 <= j < |t| ==> t[j].sum <= t[i].sum
  {
    if |t| == 1 then 0
    else
      var i := MaxIndex(t[..|t| - 1]);
      assert forall j :: 0 <= j < |t| - 1 ==> t[..|t| - 1][j] == t[j];
      if t[|t| - 1].sum >= t[i].sum then |t| - 1 else i
  }

  /** Math.max over the category totals: an upper bound of every total that
      is itself one of them. */
  function MaxValue(t: seq<Slot>): (m: real)
    requires t != []
    ensures forall i :: 0 <= i < |t| ==> t[i].sum <= m
    ensures m == t[MaxIndex(t)].sum
  {
    t[MaxIndex(t)].sum
  }

  /** The width shared by all n bars: an even share of the chart width less
      the gap, but never below the floor. */
  function BarWidth(w: nat, n: nat): real
    requires n > 0
  {
    var share := (w as real - 2.0 * Margin) / n as real - Gap;
    if share > MinBarWidth then share else MinBarWidth
  }

  /** The height of the bar of value v, scaled so that the maximum fills
      the chart height. */
  function BarHeight(v: real, max: real, chartH: real): real
    requires max != 0.0
  {
    v / max * chartH
  }

  /** The maximum gets exactly the chart height. */
  lemma BarHeightOfMax(max: real, chartH: real)
    requires max != 0.0
    ensures BarHeight(max, max, chartH) == chartH
  {
    assert max / max == 1.0;
  }

  /** Scaling is proportional: height times maximum is value times chart
      height. */
  lemma BarHeightTimesMax(v: real, max: real, chartH: real)
    requires max != 0.0
    ensures BarHeight(v, max, chartH) * max == v * chartH
  {
    var q := v / max;
    assert q * max == v;
    assert BarHeight(v, max, chartH) * max == (q * max) * chartH;
  }

  /** With a positive maximum and a nonnegative chart height, a larger value
      never gets a shorter bar. */
  lemma BarHeightMonotone(v: real, u: real, max: real, chartH: real)
    requires max > 0.0 && chartH >= 0.0 && v <= u
    ensures BarHeight(v, max, chartH) <= BarHeight(u, max, chartH)
  {
    var q, r := v / max, u / max;
    assert q <= r;
    assert (r - q) * chartH >= 0.0;
    assert BarHeight(u, max, chartH) - BarHeight(v, max, chartH) == (r - q) * chartH;
  }

  /** A value between 0 and a positive maximum gets a height between 0 and
      a nonnegative chart height. */
  lemma BarHeightBounded(v: real, max: real, chartH: real)
    requires max > 0.0 && chartH >= 0.0 && 0.0 <= v <= max
    ensures 0.0 <= BarHeight(v, max, chartH) <= chartH
  {
    var q := v / max;
    assert 0.0 <= q <= 1.0;
    assert q * chartH >= 0.0 && (1.0 - q) * chartH >= 0.0;
    assert chartH - BarHeight(v, max, chartH) == (1.0 - q) * chartH;
  }

  /** The bar of the i-th category. */
  function PlaceBar(w: nat, h: nat, t: seq<Slot>, i: nat): Bar
    requires i < |t|
  {
    var chartH := h as real - 2.0 * Margin;
    var barW := BarWidth(w, |t|);
    var max := MaxValue(t);
    var x := Margin + i as real * (barW + Gap);
    var rect :=
      if max == 0.0 then None
      else
        var barH := BarHeight(t[i].sum, max, chartH);
        var y := Margin + (chartH - barH);
        Some(Rect(y, barH, y - 6.0));
    Bar(x, barW, t[i].sum, rect, Capitalize(t[i].key), x + barW / 2.0, h as real - Margin + 10.0)
  }

  /** One bar per category, in the categories' order. */
  function PlaceBars(w: nat, h: nat, t: seq<Slot>): (bs: seq<Bar>)
    ensures |bs| == |t|
    ensures forall i :: 0 <= i < |t| ==> bs[i] == PlaceBar(w, h, t, i)
  {
    seq(|t|, i requires 0 <= i < |t| => PlaceBar(w, h, t, i))
  }

  /** The chart of the totals t: the placeholder text when there is no
      category, otherwise the bars. */
  function Layout(w: nat, h: nat, t: seq<Slot>): Drawing
  {
    if t == [] then Placeholder(NoDataText, 10.0, 20.0) else Bars(PlaceBars(w, h, t))
  }

  /** The drawing pass: compute the shared geometry, then walk the
      categories left to right. */
  method DrawBarChart(w: nat, h: nat, data: seq<Slot>) returns (d: Drawing)
    ensures d == Layout(w, h, data)
  {
    if |data| == 0 {
      return Placeholder(NoDataText, 10.0, 20.0);
    }
    var max := MaxValue(data);
    var chartW := w as real - 2.0 * Margin;
    var chartH := h as real - 2.0 * Margin;
    var share := chartW / |data| as real - Gap;
    var barW := if share > MinBarWidth then share else MinBarWidth;
    var bars: seq<Bar> := [];
    var i := 0;
    while i < |data|
      invariant 0 <= i <= |data|
      invariant |bars| == i
      invariant forall j :: 0 <= j < i ==> bars[j] == PlaceBar(w, h, data, j)
    {
      var val := data[i].sum;
      var x := Margin + i as real * (barW + Gap);
      var rect: Option<Rect> := None;
      if max != 0.0 {
        var barH := BarHeight(val, max, chartH);
        var y := Margin + (chartH - barH);
        rect := Some(Rect(y, barH, y - 6.0));
      }
      var bar := Bar(x, barW, val, rect, Capitalize(data[i].key), x + barW / 2.0, h as real - Margin + 10.0);
      assert bar == PlaceBar(w, h, data, i);
      bars := bars + [bar];
      i := i + 1;
    }
    d := Bars(bars);
  }

  // ----- Properties of the layout -----

  /** No categories: only the placeholder, at (10, 20). Otherwise exactly one
      bar per category, in the categories' order, labelled with the
      capitalised key. */
  lemma LayoutShape(w: nat, h: nat, t: seq<Slot>)
    ensures Layout(w, h, t).Placeholder? <==> t == []
    ensures t == [] ==> Layout(w, h, t) == Placeholder(NoDataText, 10.0, 20.0)
    ensures t != [] ==> Layout(w, h, t) == Bars(PlaceBars(w, h, t))
    ensures t != [] ==> |Layout(w, h, t).bars| == |t|
    ensures t != [] ==> forall i :: 0 <= i < |t| ==>
              Layout(w, h, t).bars[i].value == t[i].sum &&
              Layout(w, h, t).bars[i].caption == Capitalize(t[i].key)
  {
  }

  /** All bars have one width, at least the floor of 20 and at least the
      even share of the chart width. */
  lemma BarWidthFloor(w: nat, h: nat, t: seq<Slot>)
    requires t != []
    ensures forall i :: 0 <= i < |t| ==>
              Layout(w, h, t).bars[i].width == Layout(w, h, t).bars[0].width &&
              Layout(w, h, t).bars[i].width >= MinBarWidth &&
              Layout(w, h, t).bars[i].width >= (w as real - 2.0 * Margin) / |t| as real - Gap
  {
  }

  /** Bars start at the left margin and follow each other at a fixed pitch
      of one width plus the gap, so they never overlap. */
  lemma BarsLeftToRight(w: nat, h: nat, t: seq<Slot>)
    requires t != []
    ensures Layout(w, h, t).bars[0].x == Margin
    ensures forall i :: 0 <= i < |t| - 1 ==>
              var b := Layout(w, h, t).bars;
              b[i + 1].x == b[i].x + b[i].width + Gap && b[i].x + b[i].width < b[i + 1].x
  {
    var b := Layout(w, h, t).bars;
    forall i | 0 <= i < |t| - 1
      ensures b[i + 1].x == b[i].x + b[i].width + Gap && b[i].x + b[i].width < b[i + 1].x
    {
      var barW := BarWidth(w, |t|);
      assert b[i + 1].x == Margin + (i as real + 1.0) * (barW + Gap);
      assert (i as real + 1.0) * (barW + Gap) == i as real * (barW + Gap) + barW + Gap;
    }
  }

  /** With a non-zero maximum every bar is drawn and stands on the baseline
      20 pixels above the bottom edge, with its value label 6 pixels above
      its top. The category label is anchored at the bar's horizontal
      midpoint, 10 pixels below the baseline; it is right-aligned and rotated
      there, which is not modelled. */
  lemma BarsOnBaseline(w: nat, h: nat, t: seq<Slot>)
    requires t != [] && MaxValue(t) != 0.0
    ensures forall i :: 0 <= i < |t| ==>
              var b := Layout(w, h, t).bars[i];
              b.rect.Some? &&
              b.rect.value.top + b.rect.value.height == h as real - Margin &&
              b.rect.value.valueTextY == b.rect.value.top - 6.0 &&
              b.captionX == b.x + b.width / 2.0 &&
              b.captionY == h as real - Margin + 10.0
  {
  }

  /** The bar of the largest value fills the chart height: its top is at the
      top margin. */
  lemma TallestBarFillsChart(w: nat, h: nat, t: seq<Slot>, i: nat)
    requires i < |t| && MaxValue(t) != 0.0 && t[i].sum == MaxValue(t)
    ensures PlaceBars(w, h, t)[i].rect == Some(Rect(Margin, h as real - 2.0 * Margin, Margin - 6.0))
  {
    BarHeightOfMax(MaxValue(t), h as real - 2.0 * Margin);
  }

  /** Heights are proportional to values: height * max == value * chartH. */
  lemma HeightsProportional(w: nat, h: nat, t: seq<Slot>, i: nat)
    requires i < |t| && MaxValue(t) != 0.0
    ensures PlaceBars(w, h, t)[i].rect.Some?
    ensures PlaceBars(w, h, t)[i].rect.value.height * MaxValue(t) == t[i].sum * (h as real - 2.0 * Margin)
  {
    var max, chartH := MaxValue(t), h as real - 2.0 * Margin;
    BarHeightAt(w, h, t, i);
    BarHeightTimesMax(t[i].sum, max, chartH);
    var hi := PlaceBars(w, h, t)[i].rect.value.height;
    assert hi * max == BarHeight(t[i].sum, max, chartH) * max;
  }

  /** For a positive maximum on a canvas at least 40 pixels high, a larger
      value never gets a shorter bar. */
  lemma HeightsMonotone(w: nat, h: nat, t: seq<Slot>, i: nat, j: nat)
    requires i < |t| && j < |t| && MaxValue(t) > 0.0 && h as real >= 2.0 * Margin
    requires t[i].sum <= t[j].sum
    ensures PlaceBars(w, h, t)[i].rect.Some? && PlaceBars(w, h, t)[j].rect.Some?
    ensures PlaceBars(w, h, t)[i].rect.value.height <= PlaceBars(w, h, t)[j].rect.value.height
  {
    BarHeightAt(w, h, t, i);
    BarHeightAt(w, h, t, j);
    BarHeightMonotone(t[i].sum, t[j].sum, MaxValue(t), h as real - 2.0 * Margin);
  }

  /** For a positive maximum on a canvas at least 40 pixels high, a
      nonnegative value gets a height between 0 and the chart height, so its
      bar lies inside the chart area. */
  lemma HeightsBounded(w: nat, h: nat, t: seq<Slot>, i: nat)
    requires i < |t| && MaxValue(t) > 0.0 && h as real >= 2.0 * Margin && t[i].sum >= 0.0
    ensures PlaceBars(w, h, t)[i].rect.Some?
    ensures 0.0 <= PlaceBars(w, h, t)[i].rect.value.height <= h as real - 2.0 * Margin
    ensures Margin <= PlaceBars(w, h, t)[i].rect.value.top
  {
    BarHeightAt(w, h, t, i);
    BarHeightBounded(t[i].sum, MaxValue(t), h as real - 2.0 * Margin);
  }

  /** With a non-zero maximum the i-th bar has a rectangle of the scaled
      height. */
  lemma BarHeightAt(w: nat, h: nat, t: seq<Slot>, i: nat)
    requires i < |t| && MaxValue(t) != 0.0
    ensures PlaceBars(w, h, t)[i].rect.Some?
    ensures PlaceBars(w, h, t)[i].rect.value.height == BarHeight(t[i].sum, MaxValue(t), h as real - 2.0 * Margin)
  {
  }

  /** When the largest total is 0 every height is 0/0 or -x/0, which is not
      a finite number: no rectangle and no value label is drawn, only the
      category labels. */
  lemma ZeroMaxDrawsNoRects(w: nat, h: nat, t: seq<Slot>)
    requires t != [] && MaxValue(t) == 0.0
    ensures forall i :: 0 <= i < |t| ==> Layout(w, h, t).bars[i].rect.None?
  {
  }
}
