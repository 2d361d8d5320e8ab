/** The drawing rules of one station box: status colour, box size, styling
    by station type, label font size and line placement, the efficiency bar
    and the temperature label. */
module ProcessNode {
  import opened Common
  import DataContext
  import ProcessFlow

  type Reading = DataContext.ProcessReading

  /** The three status colours; each has an opaque primary (stroke) and a
      translucent secondary (halo) shade. */
  datatype Tone = Green | Amber | Red

  datatype ColorPair = ColorPair(primary: string, secondary: string)

  /** The red, green and blue channels of a tone. */
  function Channels(t: Tone): string {
    match t
    case Green => "34, 197, 94"
    case Amber => "245, 158, 11"
    case Red => "239, 68, 68"
  }

  /** The shades of a tone: the stroke is the tone's colour, the halo the
      same channels at 20 % opacity, and distinct tones have distinct
      strokes. */
  function Shades(t: Tone): (c: ColorPair)
    ensures c.primary == "rgb(" + Channels(t) + ")"
    ensures c.secondary == "rgba(" + Channels(t) + ", 0.2)"
    ensures t == Amber <==> c.primary == "rgb(245, 158, 11)"
    ensures t == Red <==> c.primary == "rgb(239, 68, 68)"
    ensures t == Green <==> c.primary == "rgb(34, 197, 94)"
  {
    match t
    case Green =>
      assert "rgb(" + Channels(t) + ")" == "rgb(34, 197, 94)";
      assert "rgba(" + Channels(t) + ", 0.2)" == "rgba(34, 197, 94, 0.2)";
      ColorPair("rgb(34, 197, 94)", "rgba(34, 197, 94, 0.2)")
    case Amber =>
      assert "rgb(" + Channels(t) + ")" == "rgb(245, 158, 11)";
      assert "rgba(" + Channels(t) + ", 0.2)" == "rgba(245, 158, 11, 0.2)";
      ColorPair("rgb(245, 158, 11)", "rgba(245, 158, 11, 0.2)")
    case Red =>
      assert "rgb(" + Channels(t) + ")" == "rgb(239, 68, 68)";
      assert "rgba(" + Channels(t) + ", 0.2)" == "rgba(239, 68, 68, 0.2)";
      ColorPair("rgb(239, 68, 68)", "rgba(239, 68, 68, 0.2)")
  }

  /** `getStatusColor`: no data and every status other than 'critical' and
      'warning' (including 'normal') are green. */
  function StatusTone(data: Option<Reading>): (t: Tone)
    ensures t == Red <==> data.Some? && data.value.status == "critical"
    ensures t == Amber <==> data.Some? && data.value.status == "warning"
    ensures data.None? ==> t == Green
  {
    if data.None? then Green
    else if data.value.status == "critical" then Red
    else if data.value.status == "warning" then Amber
    else Green
  }

  /** `getStatusColor`: red for a critical station, amber for a warning,
      green for everything else including a station without data. */
  function StatusColors(data: Option<Reading>): (c: ColorPair)
    ensures c.primary == "rgb(239, 68, 68)" <==> data.Some? && data.value.status == "critical"
    ensures c.primary == "rgb(245, 158, 11)" <==> data.Some? && data.value.status == "warning"
    ensures c.primary == "rgb(34, 197, 94)" <==> data.None? || data.value.status !in {"critical", "warning"}
    ensures c == Shades(StatusTone(data))
  {
    Shades(StatusTone(data))
  }

  const DefaultWidth: real := 120.0
  const DefaultHeight: real := 50.0

  datatype Dimensions = Dimensions(width: real, height: real)

  /** `getNodeDimensions`: `width || 120` and `height || 50`, so a zero size
      is replaced by the default as well as a missing one. */
  function NodeDimensions(width: Option<real>, height: Option<real>): (d: Dimensions)
    ensures !Truthy(width) ==> d.width == DefaultWidth
    ensures Truthy(width) ==> d.width == width.value
    ensures !Truthy(height) ==> d.height == DefaultHeight
    ensures Truthy(height) ==> d.height == height.value
    ensures d.width != 0.0 && d.height != 0.0
  {
    Dimensions(OrDefault(width, DefaultWidth), OrDefault(height, DefaultHeight))
  }

  /** The box routing and the box drawing disagree on an explicit zero width:
      the routing keeps it (`??`), the drawing replaces it (`||`). */
  lemma ZeroWidthDrawnWideButRoutedNarrow(n: ProcessFlow.FlowNode)
    requires n.width == Some(0.0)
    ensures ProcessFlow.HalfWidth(n) == 0.0
    ensures NodeDimensions(n.width, n.height).width == DefaultWidth
  {
  }

  datatype TypeStyle = TypeStyle(borderRadius: nat, strokeDashArray: Option<string>, opacity: real, icon: string)

  const DefaultStyle: TypeStyle := TypeStyle(4, None, 0.9, "\U{26A1}")

  /** `getTypeBasedStyling` */
  function StyleFor(kind: string): (s: TypeStyle)
    ensures s.strokeDashArray.Some? <==> kind == "storage" || kind == "destination"
    ensures kind == "storage" ==> s.strokeDashArray == Some("5,5")
    ensures kind == "destination" ==> s.strokeDashArray == Some("3,3")
    ensures kind !in {"storage", "oven", "booth", "process", "destination"} ==> s == DefaultStyle
    ensures 0.9 <= s.opacity <= 0.95
    ensures s.opacity == 0.95 <==> kind == "oven" || kind == "destination"
    ensures s.opacity == 0.9 <==> kind != "oven" && kind != "destination"
    ensures s.borderRadius == 8 <==> kind == "storage" || kind == "destination"
    ensures s.borderRadius == 6 <==> kind == "booth"
    ensures s.borderRadius == 4 <==> kind !in {"storage", "booth", "destination"}
    ensures kind == "storage" ==> s.icon == "\U{1F4E6}"
    ensures kind == "oven" ==> s.icon == "\U{1F525}"
    ensures kind == "booth" ==> s.icon == "\U{1F3A8}"
    ensures kind == "process" ==> s.icon == "\U{2699}\U{FE0F}"
    ensures kind == "destination" ==> s.icon == "\U{1F3AF}"
  {
    match kind
    case "storage" => TypeStyle(8, Some("5,5"), 0.9, "\U{1F4E6}")
    case "oven" => TypeStyle(4, None, 0.95, "\U{1F525}")
    case "booth" => TypeStyle(6, None, 0.9, "\U{1F3A8}")
    case "process" => TypeStyle(4, None, 0.9, "\U{2699}\U{FE0F}")
    case "destination" => TypeStyle(8, Some("3,3"), 0.95, "\U{1F3AF}")
    case _ => DefaultStyle
  }

  function CountNewlines(s: string): (n: nat)
    ensures n <= |s|
  {
    if |s| == 0 then 0 else (if s[0] == '\n' then 1 else 0) + CountNewlines(s[1..])
  }

  /** `name.replace(/\n/g, '')` */
  function StripNewlines(s: string): (r: string)
    ensures |r| == |s| - CountNewlines(s)
    ensures forall i :: 0 <= i < |r| ==> r[i] != '\n'
  {
    if |s| == 0 then ""
    else if s[0] == '\n' then StripNewlines(s[1..])
    else [s[0]] + StripNewlines(s[1..])
  }

  /** `name.split('\n')`: one more line than there are line breaks, none of
      them containing a break. */
  function SplitLines(s: string): (lines: seq<string>)
    ensures |lines| == CountNewlines(s) + 1
    ensures forall k :: 0 <= k < |lines| ==> forall i :: 0 <= i < |lines[k]| ==> lines[k][i] != '\n'
  {
    if |s| == 0 then [""]
    else if s[0] == '\n' then [""] + SplitLines(s[1..])
    else
      var rest := SplitLines(s[1..]);
      [[s[0]] + rest[0]] + rest[1..]
  }

  /** `lines.join('\n')` */
  function JoinLines(lines: seq<string>): string
    requires |lines| > 0
  {
    if |lines| == 1 then lines[0] else lines[0] + "\n" + JoinLines(lines[1..])
  }

  /** Splitting at the line breaks loses nothing: joining the lines again
      gives back the label. */
  lemma {:induction false} SplitJoinRoundTrip(s: string)
    ensures JoinLines(SplitLines(s)) == s
  {
    if |s| > 0 {
      SplitJoinRoundTrip(s[1..]);
      var rest := SplitLines(s[1..]);
      if s[0] == '\n' {
        assert SplitLines(s)[1..] == rest;
        assert s == "\n" + s[1..];
      } else {
        var lines := SplitLines(s);
        assert lines[0] == [s[0]] + rest[0];
        assert lines[1..] == rest[1..];
        if |rest| == 1 {
          assert s == [s[0]] + rest[0];
        } else {
          assert JoinLines(rest) == rest[0] + "\n" + JoinLines(rest[1..]);
          assert s == [s[0]] + s[1..];
        }
      }
    }
  }

  /** A label with at least one character other than a line break has a
      non-zero text length, so its size comes from the width-and-height
      heuristic rather than from a division by zero. */
  lemma {:induction false} NonBlankLabelHasText(s: string, i: nat)
    requires i < |s| && s[i] != '\n'
    ensures |StripNewlines(s)| > 0
  {
    if i > 0 {
      if s[0] == '\n' {
        NonBlankLabelHasText(s[1..], i - 1);
      }
    }
  }

  const MinFontSize: real := 8.0
  const MaxFontSize: real := 14.0

  /** The unclamped heuristic of `getFontSize`: the smaller of a width-based
      and a height-based size. */
  function BaseFontSize(textLength: nat, lines: nat, width: real, height: real): (fs: real)
    requires textLength > 0 && lines > 0
    ensures fs <= width / ((textLength as real) / (lines as real) * 0.8)
    ensures fs <= height / ((lines as real) * 1.8)
    ensures fs == width / ((textLength as real) / (lines as real) * 0.8) || fs == height / ((lines as real) * 1.8)
  {
    Min(width / ((textLength as real) / (lines as real) * 0.8), height / ((lines as real) * 1.8))
  }

  /** `getFontSize`. The box width is never zero (`getNodeDimensions`). A
      label of line breaks only divides the width by zero: a positive width
      gives +Infinity, which leaves the height-based size, and a negative one
      gives -Infinity, which the clamp lifts to 8. */
  function FontSize(name: string, width: real, height: real): (fs: real)
    requires width != 0.0
    ensures MinFontSize <= fs <= MaxFontSize
    ensures |StripNewlines(name)| > 0 && MinFontSize < fs < MaxFontSize ==>
              fs == BaseFontSize(|StripNewlines(name)|, |SplitLines(name)|, width, height)
    ensures |StripNewlines(name)| > 0 ==>
              var base := BaseFontSize(|StripNewlines(name)|, |SplitLines(name)|, width, height);
              && (MinFontSize <= base <= MaxFontSize ==> fs == base)
              && (base < MinFontSize ==> fs == MinFontSize)
              && (base > MaxFontSize ==> fs == MaxFontSize)
    ensures |StripNewlines(name)| == 0 && width > 0.0 ==>
              fs == Clamp(height / ((|SplitLines(name)| as real) * 1.8), MinFontSize, MaxFontSize)
    ensures |StripNewlines(name)| == 0 && width < 0.0 ==> fs == MinFontSize
  {
    var textLength, lines := |StripNewlines(name)|, |SplitLines(name)|;
    if textLength > 0 then
      Clamp(BaseFontSize(textLength, lines, width, height), MinFontSize, MaxFontSize)
    else if width > 0.0 then
      Clamp(height / ((lines as real) * 1.8), MinFontSize, MaxFontSize)
    else
      MinFontSize
  }

  /** The vertical offset of label line `i` of `n` from the box centre. */
  function LineOffset(i: nat, n: nat, fontSize: real): (d: real)
    ensures 2 * i + 1 == n ==> d == 0.0
    ensures 2 * i + 1 < n && fontSize + 2.0 > 0.0 ==> d < 0.0
    ensures 2 * i + 1 > n && fontSize + 2.0 > 0.0 ==> d > 0.0
  {
    var a := (i as real) - ((n as real) - 1.0) / 2.0;
    var b := fontSize + 2.0;
    assert a < 0.0 && b > 0.0 ==> a * b < 0.0;
    assert a > 0.0 && b > 0.0 ==> a * b > 0.0;
    a * b
  }

  /** The baselines of the label lines: centred on the box, `fontSize + 2` apart. */
  function LineYs(y: real, n: nat, fontSize: real): (ys: seq<real>)
    ensures |ys| == n
    ensures forall i :: 0 <= i < n ==> ys[i] - y == -(ys[n - 1 - i] - y)
    ensures forall i :: 0 <= i < n - 1 ==> ys[i + 1] - ys[i] == fontSize + 2.0
  {
    var ys := seq(n, i requires 0 <= i < n => y + LineOffset(i, n, fontSize));
    assert forall i :: 0 <= i < n ==> LineOffset(i, n, fontSize) == -LineOffset(n - 1 - i, n, fontSize) by {
      forall i | 0 <= i < n
        ensures LineOffset(i, n, fontSize) == -LineOffset(n - 1 - i, n, fontSize)
      {
        var a := (i as real) - ((n as real) - 1.0) / 2.0;
        var b := ((n - 1 - i) as real) - ((n as real) - 1.0) / 2.0;
        assert a == -b;
      }
    }
    ys
  }

  datatype Bar = Bar(width: real, tone: Tone)

  /** The efficiency strip along the bottom edge: drawn only for a truthy
      efficiency, as wide as that percentage of the box, in the status
      colour above 80 % and amber otherwise. */
  function EfficiencyBar(nodeWidth: real, data: Option<Reading>): (b: Option<Bar>)
    ensures b.Some? <==> data.Some? && Truthy(data.value.efficiency)
    ensures b.Some? ==> b.value.width * 100.0 == nodeWidth * data.value.efficiency.value
    ensures b.Some? ==> (b.value.tone == StatusTone(data) <==> data.value.efficiency.value > 80.0 || StatusTone(data) == Amber)
    ensures b.Some? && data.value.efficiency.value <= 80.0 ==> b.value.tone == Amber
    ensures b.Some? && 0.0 <= nodeWidth && 0.0 <= data.value.efficiency.value <= 100.0 ==>
              0.0 <= b.value.width <= nodeWidth
  {
    if data.Some? && Truthy(data.value.efficiency) then
      var e := data.value.efficiency.value;
      Some(Bar(nodeWidth * (e / 100.0), if e > 80.0 then StatusTone(data) else Amber))
    else None
  }

  datatype TemperatureLabel = TemperatureLabel(degrees: int, fontSize: real)

  /** The temperature under the box: shown only for a truthy temperature
      (so 0 degrees is hidden), rounded, at 70 % of the label size but
      never below 8 px. */
  function TemperatureLabelFor(data: Option<Reading>, fontSize: real): (l: Option<TemperatureLabel>)
    ensures l.Some? <==> data.Some? && Truthy(data.value.temperature)
    ensures l.Some? ==> l.value.degrees as real - 0.5 <= data.value.temperature.value < l.value.degrees as real + 0.5
    ensures l.Some? ==> MinFontSize <= l.value.fontSize
    ensures l.Some? && fontSize * 0.7 >= MinFontSize ==> l.value.fontSize == fontSize * 0.7
    ensures l.Some? && fontSize * 0.7 < MinFontSize ==> l.value.fontSize == MinFontSize
    ensures l.Some? && fontSize <= MaxFontSize ==> l.value.fontSize <= 0.7 * MaxFontSize
  {
    if data.Some? && Truthy(data.value.temperature) then
      Some(TemperatureLabel(Round(data.value.temperature.value), Max(MinFontSize, fontSize * 0.7)))
    else None
  }

  /** The status dot pulses exactly for a station reported 'normal'. */
  function Pulses(data: Option<Reading>): (p: bool)
    ensures p ==> StatusTone(data) == Green
    ensures p <==> data.Some? && data.value.status == "normal"
  {
    data.Some? && data.value.status == "normal"
  }
}
