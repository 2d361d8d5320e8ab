/** The X-bar/R control chart of a quality parameter (real-data path).

    The most recent 100 measurements are cut, from the FRONT of that window,
    into consecutive subgroups of five, at most twenty of them; an incomplete
    trailing group (the newest values) is dropped. Each subgroup has a mean
    and a range; the centre lines and control limits follow from the
    Shewhart factors for subgroup size five (A2 = 0.577, D3 = 0, D4 = 2.114,
    the factor table of ISO 7870-2). Values are then mapped into the plot
    area of a 500 x 200 chart with margins 20/80/40/60 (top/right/bottom/left).
 */
module ControlChart {
  import opened Common
  import opened Stats
  import opened DataContext

  const WindowSize: nat := 100
  const SubgroupSize: nat := 5
  const MaxSubgroups: nat := 20

  const A2: real := 0.577
  const D3: real := 0.0
  const D4: real := 2.114

  const MarginTop: real := 20.0
  const MarginLeft: real := 60.0
  /** 200 - 20 - 40 */
  const PlotHeight: real := 140.0
  /** 500 - 60 - 80 */
  const PlotWidth: real := 360.0

  datatype Subgroup = Subgroup(sample: nat, mean: real, range: real, values: seq<real>)

  datatype Limits = Limits(xBarMean: real, rBar: real, xBarUCL: real, xBarLCL: real, rUCL: real, rLCL: real)

  /** The extent of both charts' vertical axes; the spans replace a zero
      extent by one (`|| 1`). */
  datatype Scales = Scales(xBarMax: real, xBarMin: real, xBarRange: real, rMax: real, rRange: real)

  datatype Chart = Chart(groups: seq<Subgroup>, limits: Limits, scales: Scales)

  /** `measurements.slice(-100)`: the newest (at most) 100 measurements. */
  function Window(ms: seq<Measurement>): (w: seq<Measurement>)
    ensures |w| == MinNat(|ms|, WindowSize)
    ensures w == ms[|ms| - |w|..]
  {
    if |ms| <= WindowSize then ms else ms[|ms| - WindowSize..]
  }

  /** `.map(m => m.value)` */
  function Values(ms: seq<Measurement>): (vs: seq<real>)
    ensures |vs| == |ms|
    ensures forall i :: 0 <= i < |ms| ==> vs[i] == ms[i].value
  {
    seq(|ms|, i requires 0 <= i < |ms| => ms[i].value)
  }

  /** The number of complete subgroups the chart draws for a window of `n` values. */
  function SubgroupCount(n: nat): nat
  {
    MinNat(MaxSubgroups, n / SubgroupSize)
  }

  /** Subgroup `i` of the window `w` as the loop body computes it. */
  function RawSubgroup(w: seq<real>, i: nat): Subgroup
    requires i < SubgroupCount(|w|)
  {
    GroupFits(|w|, i);
    var values := w[SubgroupSize * i .. SubgroupSize * i + SubgroupSize];
    Subgroup(i + 1, Sum(values) / (SubgroupSize as real), SeqMax(values) - SeqMin(values), values)
  }

  /** Subgroup `i` of the window `w`: the five values from offset 5i, their
      mean and their range, numbered from one. */
  function MakeSubgroup(w: seq<real>, i: nat): (g: Subgroup)
    requires i < SubgroupCount(|w|)
    ensures g.sample == i + 1
    ensures g.values == w[SubgroupSize * i .. SubgroupSize * i + SubgroupSize]
    ensures g.mean == Mean(g.values)
    ensures g.range >= 0.0
    ensures SeqMin(g.values) <= g.mean <= SeqMax(g.values)
    ensures g.range == SeqMax(g.values) - SeqMin(g.values)
  {
    GroupFits(|w|, i);
    var values := w[SubgroupSize * i .. SubgroupSize * i + SubgroupSize];
    MeanWithinSpread(values);
    RawSubgroup(w, i)
  }

  /** The subgroups of the real-data path, as a value. */
  function Subgroups(ms: seq<Measurement>): (gs: seq<Subgroup>)
    ensures |gs| == SubgroupCount(|Window(ms)|)
    ensures |gs| <= MaxSubgroups
    ensures forall i :: 0 <= i < |gs| ==>
              && gs[i].sample == i + 1
              && gs[i].values == Values(Window(ms))[SubgroupSize * i .. SubgroupSize * i + SubgroupSize]
              && |gs[i].values| == SubgroupSize
              && gs[i].mean == Mean(gs[i].values)
              && gs[i].range == SeqMax(gs[i].values) - SeqMin(gs[i].values)
              && gs[i].range >= 0.0
              && SeqMin(gs[i].values) <= gs[i].mean <= SeqMax(gs[i].values)
  {
    var w := Values(Window(ms));
    var n := SubgroupCount(|w|);
    seq(n, i requires 0 <= i < n => MakeSubgroup(w, i))
  }

  /** Every counted subgroup lies inside the window. */
  lemma GroupFits(n: nat, i: nat)
    requires i < SubgroupCount(n)
    ensures SubgroupSize * i + SubgroupSize <= n
  {
  }

  /** The subgroup loop of the chart: one subgroup per iteration, appended in order. */
  method BuildSubgroups(ms: seq<Measurement>) returns (groups: seq<Subgroup>)
    ensures groups == Subgroups(ms)
  {
    var w := Values(Window(ms));
    groups := SubgroupLoop(w);
    var gs := Subgroups(ms);
    assert |groups| == |gs|;
    forall j | 0 <= j < |groups|
      ensures groups[j] == gs[j]
    {
      assert gs[j] == MakeSubgroup(w, j);
    }
  }

  /** Appending subgroup `i` to the first `i` subgroups gives the first `i + 1`. */
  lemma GroupAppended(w: seq<real>, groups: seq<Subgroup>, i: nat)
    requires i < SubgroupCount(|w|) && |groups| == i
    requires forall j :: 0 <= j < i ==> groups[j] == RawSubgroup(w, j)
    ensures forall j :: 0 <= j <= i ==> (groups + [RawSubgroup(w, i)])[j] == RawSubgroup(w, j)
  {
    forall j | 0 <= j <= i
      ensures (groups + [RawSubgroup(w, i)])[j] == RawSubgroup(w, j)
    {
      if j < i {
        assert (groups + [RawSubgroup(w, i)])[j] == groups[j];
      }
    }
  }

  /** The loop itself, over the window's values. */
  method SubgroupLoop(w: seq<real>) returns (groups: seq<Subgroup>)
    ensures |groups| == SubgroupCount(|w|)
    ensures forall j :: 0 <= j < |groups| ==> groups[j] == RawSubgroup(w, j)
  {
    var count := SubgroupCount(|w|);
    groups := [];
    var i := 0;
    while i < count
      invariant 0 <= i <= count
      invariant |groups| == i
      invariant forall j :: 0 <= j < i ==> groups[j] == RawSubgroup(w, j)
    {
      GroupAppended(w, groups, i);
      groups := groups + [RawSubgroup(w, i)];
      i := i + 1;
    }
  }

  function Concat(gs: seq<Subgroup>): seq<real>
  {
    if |gs| == 0 then [] else gs[0].values + Concat(gs[1..])
  }

  lemma {:induction false} ConcatAppend(gs: seq<Subgroup>, g: Subgroup)
    ensures Concat(gs + [g]) == Concat(gs) + g.values
  {
    if |gs| == 0 {
      assert gs + [g] == [g];
    } else {
      assert (gs + [g])[1..] == gs[1..] + [g];
      ConcatAppend(gs[1..], g);
    }
  }

  /** `gs` cuts the front of `w` into consecutive groups of five. */
  predicate Tiles(gs: seq<Subgroup>, w: seq<real>) {
    && SubgroupSize * |gs| <= |w|
    && forall i :: 0 <= i < |gs| ==> gs[i].values == w[SubgroupSize * i .. SubgroupSize * i + SubgroupSize]
  }

  lemma {:induction false} TilesConcat(gs: seq<Subgroup>, w: seq<real>)
    requires Tiles(gs, w)
    ensures Concat(gs) == w[..SubgroupSize * |gs|]
  {
    if |gs| > 0 {
      var k := |gs| - 1;
      assert Tiles(gs[..k], w);
      TilesConcat(gs[..k], w);
      assert gs == gs[..k] + [gs[k]];
      ConcatAppend(gs[..k], gs[k]);
      assert w[..SubgroupSize * |gs|] == w[..SubgroupSize * k] + w[SubgroupSize * k .. SubgroupSize * k + SubgroupSize];
    }
  }

  /** The subgroups cover exactly the first 5k values of the window, in order:
      whatever lies beyond them (an incomplete group of the newest values, or
      anything past the twentieth group) is not charted. */
  lemma SubgroupsCoverWindowFront(ms: seq<Measurement>)
    ensures var w := Values(Window(ms));
            var gs := Subgroups(ms);
            SubgroupSize * |gs| <= |w| && Concat(gs) == w[..SubgroupSize * |gs|]
  {
    var w := Values(Window(ms));
    var gs := Subgroups(ms);
    assert Tiles(gs, w);
    TilesConcat(gs, w);
  }

  function Means(gs: seq<Subgroup>): (xs: seq<real>)
    ensures |xs| == |gs|
    ensures forall i :: 0 <= i < |gs| ==> xs[i] == gs[i].mean
  {
    seq(|gs|, i requires 0 <= i < |gs| => gs[i].mean)
  }

  function Ranges(gs: seq<Subgroup>): (xs: seq<real>)
    ensures |xs| == |gs|
    ensures forall i :: 0 <= i < |gs| ==> xs[i] == gs[i].range
  {
    seq(|gs|, i requires 0 <= i < |gs| => gs[i].range)
  }

  predicate RangesNonNegative(gs: seq<Subgroup>) {
    forall i :: 0 <= i < |gs| ==> gs[i].range >= 0.0
  }

  /** Centre lines and control limits. An empty chart divides zero by zero
      (NaN in the code), modelled as no limits at all. */
  function ComputeLimits(gs: seq<Subgroup>): (r: Option<Limits>)
    ensures r.None? <==> |gs| == 0
    ensures r.Some? ==> r.value.xBarMean == Mean(Means(gs)) && r.value.rBar == Mean(Ranges(gs))
    ensures r.Some? ==>
              && r.value.xBarUCL - r.value.xBarMean == A2 * r.value.rBar
              && r.value.xBarMean - r.value.xBarLCL == A2 * r.value.rBar
              && r.value.rUCL == D4 * r.value.rBar
              && r.value.rLCL == 0.0
              && SeqMin(Means(gs)) <= r.value.xBarMean <= SeqMax(Means(gs))
              && SeqMin(Ranges(gs)) <= r.value.rBar <= SeqMax(Ranges(gs))
    ensures r.Some? && RangesNonNegative(gs) ==>
              && 0.0 <= r.value.rBar <= r.value.rUCL
              && r.value.xBarLCL <= r.value.xBarMean <= r.value.xBarUCL
  {
    if |gs| == 0 then None
    else
      var xBarMean := Mean(Means(gs));
      var rBar := Mean(Ranges(gs));
      MeanWithinSpread(Means(gs));
      MeanWithinSpread(Ranges(gs));
      Some(Limits(xBarMean, rBar, xBarMean + A2 * rBar, xBarMean - A2 * rBar, D4 * rBar, D3 * rBar))
  }

  /** `isOutOfControl`: a point is flagged only when strictly outside the
      limits, so a value equal to a limit is in control. */
  function IsOutOfControl(value: real, ucl: real, lcl: real): (r: bool)
    ensures !r <==> lcl <= value <= ucl
  {
    value > ucl || value < lcl
  }

  /** The vertical extents of both charts: the X-bar axis covers every mean
      and both X-bar limits, the R axis runs from zero to cover every range
      and the upper R limit. */
  function ComputeScales(gs: seq<Subgroup>, lim: Limits): (sc: Scales)
    requires |gs| > 0
    ensures forall i :: 0 <= i < |gs| ==> sc.xBarMin <= gs[i].mean <= sc.xBarMax
    ensures sc.xBarMin <= lim.xBarLCL && lim.xBarUCL <= sc.xBarMax
    ensures sc.xBarRange > 0.0
    ensures sc.xBarMax - sc.xBarMin != 0.0 ==> sc.xBarRange == sc.xBarMax - sc.xBarMin
    ensures forall i :: 0 <= i < |gs| ==> gs[i].range <= sc.rMax
    ensures lim.rUCL <= sc.rMax
    ensures RangesNonNegative(gs) ==> sc.rRange > 0.0 && (sc.rMax != 0.0 ==> sc.rRange == sc.rMax)
    ensures sc.xBarMax in Means(gs) || sc.xBarMax == lim.xBarUCL
    ensures sc.xBarMin in Means(gs) || sc.xBarMin == lim.xBarLCL
    ensures sc.rMax in Ranges(gs) || sc.rMax == lim.rUCL
    ensures sc.xBarMax - sc.xBarMin == 0.0 ==> sc.xBarRange == 1.0
    ensures sc.rMax == 0.0 ==> sc.rRange == 1.0
  {
    var xBarMax := Max(SeqMax(Means(gs)), lim.xBarUCL);
    var xBarMin := Min(SeqMin(Means(gs)), lim.xBarLCL);
    var rMax := Max(SeqMax(Ranges(gs)), lim.rUCL);
    assert SeqMin(Means(gs)) <= Means(gs)[0] <= SeqMax(Means(gs));
    assert RangesNonNegative(gs) ==> 0.0 <= Ranges(gs)[0] <= SeqMax(Ranges(gs));
    Scales(xBarMax, xBarMin, NonZeroOrOne(xBarMax - xBarMin), rMax, NonZeroOrOne(rMax - 0.0))
  }

  /** The chart of a measurement series; `None` when fewer than five
      measurements leave it without subgroups. */
  function BuildChart(ms: seq<Measurement>): (c: Option<Chart>)
    ensures c.None? <==> |Window(ms)| < SubgroupSize
    ensures c.Some? ==>
              && c.value.groups == Subgroups(ms)
              && 0 < |c.value.groups| <= MaxSubgroups
              && ComputeLimits(c.value.groups) == Some(c.value.limits)
              && c.value.scales == ComputeScales(c.value.groups, c.value.limits)
  {
    var gs := Subgroups(ms);
    match ComputeLimits(gs)
    case None => None
    case Some(lim) => Some(Chart(gs, lim, ComputeScales(gs, lim)))
  }

  /** A vertical axis whose top edge shows `top` and which spans `span` units. */
  function AxisY(top: real, span: real, value: real): (y: real)
    requires span != 0.0
    ensures y == MarginTop <==> value == top
    ensures value == top - span ==> y == MarginTop + PlotHeight
  {
    MarginTop + ((top - value) / span) * PlotHeight
  }

  /** `getXBarY` */
  function XBarY(sc: Scales, value: real): (y: real)
    requires sc.xBarRange != 0.0
    ensures y == MarginTop <==> value == sc.xBarMax
    ensures value == sc.xBarMax - sc.xBarRange ==> y == MarginTop + PlotHeight
  {
    AxisY(sc.xBarMax, sc.xBarRange, value)
  }

  /** `getRY` (the R axis starts at zero) */
  function RY(sc: Scales, value: real): (y: real)
    requires sc.rRange != 0.0
    ensures y == MarginTop <==> value == sc.rMax
    ensures value == sc.rMax - sc.rRange ==> y == MarginTop + PlotHeight
  {
    AxisY(sc.rMax, sc.rRange, value)
  }

  /** `getX`: the horizontal position of point `i` of `n`. With a single
      point the code divides zero by zero (NaN), modelled as `None`. */
  function PlotX(n: nat, i: nat): (x: Option<real>)
    requires i < n
    ensures x.None? <==> n == 1
    ensures x.Some? ==> MarginLeft <= x.value <= MarginLeft + PlotWidth
    ensures x.Some? && i == 0 ==> x.value == MarginLeft
    ensures x.Some? && i == n - 1 ==> x.value == MarginLeft + PlotWidth
  {
    if n == 1 then None
    else
      var t := (i as real) / ((n - 1) as real);
      assert 0.0 <= t <= 1.0 by {
        QuotientBounds(i as real, (n - 1) as real, 0.0, 1.0);
      }
      Some(MarginLeft + t * PlotWidth)
  }

  /** Consecutive points are the same distance apart: the plot width
      divided into `n - 1` equal steps. */
  lemma PlotXEquallySpaced(n: nat, i: nat)
    requires i + 1 < n
    ensures PlotX(n, i + 1).value - PlotX(n, i).value == PlotWidth / ((n - 1) as real)
  {
    var d := (n - 1) as real;
    assert (i + 1) as real / d - (i as real) / d == 1.0 / d;
  }

  /** A vertical axis is a straight-line map: the drawn distance between two
      values is their difference scaled by `PlotHeight / span`, and on an
      axis with a positive span a larger value is drawn higher. */
  lemma AxisYAffine(top: real, span: real, a: real, b: real)
    requires span != 0.0
    ensures AxisY(top, span, a) - AxisY(top, span, b) == (b - a) / span * PlotHeight
    ensures span > 0.0 && a < b ==> AxisY(top, span, b) < AxisY(top, span, a)
  {
  }

  /** A subgroup mean flagged above the upper X-bar limit is drawn above the
      UCL line, and one flagged below the lower limit below the LCL line. */
  lemma FlaggedMeanDrawnOutsideLimits(ms: seq<Measurement>, i: nat)
    requires i < SubgroupCount(MinNat(|ms|, WindowSize))
    ensures BuildChart(ms).Some?
    ensures var c := BuildChart(ms).value;
            c.groups[i].mean > c.limits.xBarUCL ==> XBarY(c.scales, c.groups[i].mean) < XBarY(c.scales, c.limits.xBarUCL)
    ensures var c := BuildChart(ms).value;
            c.groups[i].mean < c.limits.xBarLCL ==> XBarY(c.scales, c.groups[i].mean) > XBarY(c.scales, c.limits.xBarLCL)
  {
    var c := BuildChart(ms).value;
    var sc := c.scales;
    AxisYAffine(sc.xBarMax, sc.xBarRange, c.groups[i].mean, c.limits.xBarUCL);
    AxisYAffine(sc.xBarMax, sc.xBarRange, c.limits.xBarUCL, c.groups[i].mean);
    AxisYAffine(sc.xBarMax, sc.xBarRange, c.groups[i].mean, c.limits.xBarLCL);
    AxisYAffine(sc.xBarMax, sc.xBarRange, c.limits.xBarLCL, c.groups[i].mean);
  }

  /** A value inside [lo, hi] maps into the plot band. */
  lemma AxisMapInPlot(hi: real, lo: real, span: real, value: real)
    requires lo <= value <= hi
    requires span > 0.0
    requires hi - lo != 0.0 ==> span == hi - lo
    ensures MarginTop <= AxisY(hi, span, value) <= MarginTop + PlotHeight
  {
    if hi - lo == 0.0 {
      assert hi - value == 0.0;
    } else {
      QuotientBounds(hi - value, span, 0.0, 1.0);
    }
  }

  /** Every subgroup mean and both X-bar limits, and the centre line, land in
      the vertical band [20, 160] of the X-bar chart. */
  lemma XBarPointsInPlot(c: Chart, i: nat)
    requires i < |c.groups|
    requires ComputeLimits(c.groups) == Some(c.limits)
    requires c.scales == ComputeScales(c.groups, c.limits)
    requires RangesNonNegative(c.groups)
    ensures MarginTop <= XBarY(c.scales, c.groups[i].mean) <= MarginTop + PlotHeight
    ensures MarginTop <= XBarY(c.scales, c.limits.xBarUCL) <= MarginTop + PlotHeight
    ensures MarginTop <= XBarY(c.scales, c.limits.xBarLCL) <= MarginTop + PlotHeight
    ensures MarginTop <= XBarY(c.scales, c.limits.xBarMean) <= MarginTop + PlotHeight
  {
    var sc := c.scales;
    assert c.limits.xBarLCL <= c.limits.xBarMean <= c.limits.xBarUCL;
    AxisMapInPlot(sc.xBarMax, sc.xBarMin, sc.xBarRange, c.groups[i].mean);
    AxisMapInPlot(sc.xBarMax, sc.xBarMin, sc.xBarRange, c.limits.xBarUCL);
    AxisMapInPlot(sc.xBarMax, sc.xBarMin, sc.xBarRange, c.limits.xBarLCL);
    AxisMapInPlot(sc.xBarMax, sc.xBarMin, sc.xBarRange, c.limits.xBarMean);
  }

  /** Every subgroup range, the R centre line and both R limits land in the
      vertical band [20, 160] of the R chart. */
  lemma RPointsInPlot(c: Chart, i: nat)
    requires i < |c.groups|
    requires ComputeLimits(c.groups) == Some(c.limits)
    requires c.scales == ComputeScales(c.groups, c.limits)
    requires RangesNonNegative(c.groups)
    ensures MarginTop <= RY(c.scales, c.groups[i].range) <= MarginTop + PlotHeight
    ensures MarginTop <= RY(c.scales, c.limits.rUCL) <= MarginTop + PlotHeight
    ensures MarginTop <= RY(c.scales, c.limits.rLCL) <= MarginTop + PlotHeight
    ensures MarginTop <= RY(c.scales, c.limits.rBar) <= MarginTop + PlotHeight
  {
    var sc := c.scales;
    AxisMapInPlot(sc.rMax, 0.0, sc.rRange, c.groups[i].range);
    AxisMapInPlot(sc.rMax, 0.0, sc.rRange, c.limits.rUCL);
    AxisMapInPlot(sc.rMax, 0.0, sc.rRange, c.limits.rLCL);
    AxisMapInPlot(sc.rMax, 0.0, sc.rRange, c.limits.rBar);
  }

  /** Every chart built from measurements maps all its points into the plot. */
  lemma BuiltChartInPlot(ms: seq<Measurement>, i: nat)
    requires i < SubgroupCount(MinNat(|ms|, WindowSize))
    ensures var c := BuildChart(ms).value;
            && MarginTop <= XBarY(c.scales, c.groups[i].mean) <= MarginTop + PlotHeight
            && MarginTop <= XBarY(c.scales, c.limits.xBarMean) <= MarginTop + PlotHeight
            && MarginTop <= RY(c.scales, c.groups[i].range) <= MarginTop + PlotHeight
  {
    var c := BuildChart(ms).value;
    assert RangesNonNegative(c.groups);
    XBarPointsInPlot(c, i);
    RPointsInPlot(c, i);
  }

  /** The out-of-control marks of the X-bar chart, one per subgroup. */
  function MeanFlags(c: Chart): (fs: seq<bool>)
    ensures |fs| == |c.groups|
    ensures forall i :: 0 <= i < |fs| ==>
              (fs[i] <==> !(c.limits.xBarLCL <= c.groups[i].mean <= c.limits.xBarUCL))
  {
    seq(|c.groups|, i requires 0 <= i < |c.groups| =>
      IsOutOfControl(c.groups[i].mean, c.limits.xBarUCL, c.limits.xBarLCL))
  }

  /** The out-of-control marks of the R chart, one per subgroup. */
  function RangeFlags(c: Chart): (fs: seq<bool>)
    ensures |fs| == |c.groups|
    ensures forall i :: 0 <= i < |fs| ==>
              (fs[i] <==> !(c.limits.rLCL <= c.groups[i].range <= c.limits.rUCL))
  {
    seq(|c.groups|, i requires 0 <= i < |c.groups| =>
      IsOutOfControl(c.groups[i].range, c.limits.rUCL, c.limits.rLCL))
  }

  /** Since D3 = 0 and every range is non-negative, a range point is only
      ever flagged for exceeding the upper R limit. */
  lemma RangeFlaggedOnlyAbove(ms: seq<Measurement>, i: nat)
    requires i < SubgroupCount(MinNat(|ms|, WindowSize))
    ensures var c := BuildChart(ms).value;
            RangeFlags(c)[i] <==> c.groups[i].range > c.limits.rUCL
  {
    var c := BuildChart(ms).value;
    assert c.groups[i].range >= 0.0;
  }

  /** The series the data provider starts with yields exactly five subgroups. */
  lemma InitialSeriesHasFiveSubgroups(values: seq<real>, clock: seq<int>)
    requires |values| == InitialMeasurementCount && |clock| == InitialMeasurementCount
    ensures |Subgroups(InitialMeasurements(values, clock))| == 5
    ensures BuildChart(InitialMeasurements(values, clock)).Some?
  {
  }

  /** The sum of five numbers, unfolded one element at a time. */
  lemma SumOfFive(a: real, b: real, c: real, d: real, e: real)
    ensures Sum([a, b, c, d, e]) == a + b + c + d + e
  {
    assert [a, b, c, d, e][1..] == [b, c, d, e];
    assert Sum([e]) == e by { assert [e][1..] == []; }
    assert Sum([d, e]) == d + e by { assert [d, e][1..] == [e]; }
    assert Sum([c, d, e]) == c + d + e by { assert [c, d, e][1..] == [d, e]; }
    assert Sum([b, c, d, e]) == b + c + d + e by { assert [b, c, d, e][1..] == [c, d, e]; }
  }

  /** Five subgroups with equal ranges `r`, the second with mean `b` and the
      others with mean `a`: once the shift `b - a` exceeds 5 * A2 * r, the
      shifted subgroup lies above the upper X-bar limit and every other one
      below the lower limit, so all five points are flagged. With batches of
      mean 20.8 and one of 30.2, all of range 2, the limits are 21.526 and
      23.834 and every subgroup is out of control, not only the second. */
  lemma OneShiftedBatchFlagsAll(gs: seq<Subgroup>, a: real, b: real, r: real)
    requires |gs| == 5
    requires forall i :: 0 <= i < 5 ==> gs[i].range == r
    requires gs[1].mean == b
    requires gs[0].mean == a && gs[2].mean == a && gs[3].mean == a && gs[4].mean == a
    requires r >= 0.0 && b - a > 5.0 * A2 * r
    ensures var lim := ComputeLimits(gs).value;
            && lim.xBarMean == (4.0 * a + b) / 5.0 && lim.rBar == r
            && b > lim.xBarUCL
            && forall i :: 0 <= i < 5 ==> IsOutOfControl(gs[i].mean, lim.xBarUCL, lim.xBarLCL)
  {
    var means, ranges := Means(gs), Ranges(gs);
    assert means == [a, b, a, a, a];
    assert ranges == [r, r, r, r, r];
    SumOfFive(a, b, a, a, a);
    SumOfFive(r, r, r, r, r);
    var m := Mean(means);
    assert m == Sum(means) / 5.0;
    assert m == (4.0 * a + b) / 5.0;
    assert Mean(ranges) == r by { assert Mean(ranges) == Sum(ranges) / 5.0; }
    var lim := ComputeLimits(gs).value;
    assert lim.xBarMean == m && lim.rBar == Mean(ranges);
  }
}
