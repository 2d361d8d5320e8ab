/** The small trend chart: the last twenty readings, a vertical scale that
    also covers the specification band, the 320 x 120 coordinate mapping
    and the traffic-light colouring of the points. */
module TrendChart {
  import opened Common
  import opened Stats

  /** The specification band drawn behind the series. */
  datatype Specification = Specification(min: real, max: real, target: Option<real>)

  /** The series a chart plots. An empty input makes the chart draw a
      randomised sine sample instead, which is not modelled. */
  datatype Series = Synthetic | Readings(values: seq<real>)

  const MaxPoints: nat := 20

  /** `data.slice(-20)` for non-empty data. */
  function ChartData(data: seq<real>): (s: Series)
    ensures s.Synthetic? <==> |data| == 0
    ensures s.Readings? ==> |s.values| == MinNat(MaxPoints, |data|)
    ensures s.Readings? ==> data == data[..|data| - |s.values|] + s.values
  {
    if |data| == 0 then Synthetic
    else
      var k := |data| - MinNat(MaxPoints, |data|);
      assert data == data[..k] + data[k..];
      Readings(data[k..])
  }

  datatype Scale = Scale(maxValue: real, minValue: real, range: real)

  /** The vertical extent: the data's extremes widened to the specification
      limits when there is one; a flat extent counts as one unit. */
  function ScaleFor(values: seq<real>, spec: Option<Specification>): (sc: Scale)
    requires |values| > 0
    ensures forall i :: 0 <= i < |values| ==> sc.minValue <= values[i] <= sc.maxValue
    ensures spec.Some? ==> sc.minValue <= spec.value.min && spec.value.max <= sc.maxValue
    ensures sc.maxValue in values || (spec.Some? && sc.maxValue == spec.value.max)
    ensures sc.minValue in values || (spec.Some? && sc.minValue == spec.value.min)
    ensures sc.range > 0.0
    ensures sc.maxValue > sc.minValue ==> sc.range == sc.maxValue - sc.minValue
    ensures sc.maxValue == sc.minValue ==> sc.range == 1.0
  {
    var dataMax, dataMin := SeqMax(values), SeqMin(values);
    var maxValue := if spec.Some? then Max(dataMax, spec.value.max) else dataMax;
    var minValue := if spec.Some? then Min(dataMin, spec.value.min) else dataMin;
    assert minValue <= values[0] <= maxValue;
    Scale(maxValue, minValue, NonZeroOrOne(maxValue - minValue))
  }

  predicate WellFormed(sc: Scale) {
    && sc.minValue <= sc.maxValue
    && sc.range > 0.0
    && (sc.maxValue > sc.minValue ==> sc.range == sc.maxValue - sc.minValue)
  }

  /** The y coordinate of a value: 80 units of chart, 20 units of margin. */
  function PointY(value: real, sc: Scale): (y: real)
    requires sc.range > 0.0
    ensures value == sc.minValue ==> y == 100.0
    ensures value == sc.minValue + sc.range ==> y == 40.0
  {
    assert value == sc.minValue + sc.range ==> (value - sc.minValue) / sc.range == 1.0;
    80.0 - ((value - sc.minValue) / sc.range) * 60.0 + 20.0
  }

  /** The vertical map is a straight line: the drawn distance between two
      values is their difference scaled by `60 / range`, and a larger value
      is drawn higher. */
  lemma PointYAffine(a: real, b: real, sc: Scale)
    requires sc.range > 0.0
    ensures PointY(a, sc) - PointY(b, sc) == (b - a) / sc.range * 60.0
    ensures a < b ==> PointY(b, sc) < PointY(a, sc)
  {
  }

  /** A value inside the scale lands in the band [40, 100], the top of the
      scale at 40 and the bottom at 100. */
  lemma YInBand(value: real, sc: Scale)
    requires WellFormed(sc)
    requires sc.minValue <= value <= sc.maxValue
    ensures 40.0 <= PointY(value, sc) <= 100.0
    ensures value == sc.minValue ==> PointY(value, sc) == 100.0
    ensures value == sc.maxValue && sc.maxValue > sc.minValue ==> PointY(value, sc) == 40.0
  {
    var d := value - sc.minValue;
    if sc.maxValue > sc.minValue {
      QuotientBounds(d, sc.range, 0.0, 1.0);
    } else {
      assert d == 0.0;
    }
  }

  /** Every plotted reading, and both specification lines of a consistent
      specification, lie in [40, 100]. */
  lemma PlottedInBand(values: seq<real>, spec: Option<Specification>, i: nat)
    requires |values| > 0 && i < |values|
    ensures 40.0 <= PointY(values[i], ScaleFor(values, spec)) <= 100.0
    ensures spec.Some? && spec.value.min <= spec.value.max ==>
              && 40.0 <= PointY(spec.value.max, ScaleFor(values, spec)) <= 100.0
              && 40.0 <= PointY(spec.value.min, ScaleFor(values, spec)) <= 100.0
  {
    var sc := ScaleFor(values, spec);
    YInBand(values[i], sc);
    if spec.Some? && spec.value.min <= spec.value.max {
      YInBand(spec.value.max, sc);
      YInBand(spec.value.min, sc);
    }
  }

  /** The x coordinate of point `index` of `count`; a single point divides
      zero by zero, which yields no coordinate. */
  function PointX(count: nat, index: nat): (x: Option<real>)
    requires index < count
    ensures x.None? <==> count == 1
    ensures x.Some? ==> 20.0 <= x.value <= 300.0
    ensures x.Some? && index == 0 ==> x.value == 20.0
    ensures x.Some? && index == count - 1 ==> x.value == 300.0
  {
    if count == 1 then None
    else
      var t := (index as real) / ((count - 1) as real);
      QuotientBounds(index as real, (count - 1) as real, 0.0, 1.0);
      Some(t * 280.0 + 20.0)
  }

  /** Consecutive points are the same distance apart: 280 units divided
      into `count - 1` equal steps. */
  lemma PointXEquallySpaced(count: nat, index: nat)
    requires index + 1 < count
    ensures PointX(count, index + 1).value - PointX(count, index).value == 280.0 / ((count - 1) as real)
  {
    var d := (count - 1) as real;
    assert (index + 1) as real / d - (index as real) / d == 1.0 / d;
  }

  /** The fill of one point: the series colour, amber close to a limit, red
      outside the band. */
  datatype PointColour = SeriesColour | Amber | Red

  function ColourFor(value: real, spec: Option<Specification>): (c: PointColour)
    ensures spec.None? ==> c == SeriesColour
    ensures c == Red <==> spec.Some? && (value > spec.value.max || value < spec.value.min)
    ensures c == Amber <==>
              && spec.Some?
              && spec.value.min <= value <= spec.value.max
              && (value > spec.value.max * 0.9 || value < spec.value.min * 1.1)
  {
    if spec.None? then SeriesColour
    else if value > spec.value.max || value < spec.value.min then Red
    else if value > spec.value.max * 0.9 || value < spec.value.min * 1.1 then Amber
    else SeriesColour
  }

  /** The target line is drawn only for a truthy target. */
  function TargetLineY(spec: Specification, sc: Scale): (y: Option<real>)
    requires sc.range > 0.0
    ensures y.Some? <==> Truthy(spec.target)
    ensures y.Some? ==> y.value == PointY(spec.target.value, sc)
    ensures y.Some? && WellFormed(sc) && sc.minValue <= spec.target.value <= sc.maxValue ==>
              40.0 <= y.value <= 100.0
  {
    if Truthy(spec.target) then
      var y := PointY(spec.target.value, sc);
      assert WellFormed(sc) && sc.minValue <= spec.target.value <= sc.maxValue ==> 40.0 <= y <= 100.0 by {
        if WellFormed(sc) && sc.minValue <= spec.target.value <= sc.maxValue {
          YInBand(spec.target.value, sc);
        }
      }
      Some(y)
    else None
  }
}
