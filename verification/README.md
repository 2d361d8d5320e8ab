# Paint-shop dashboard: a Dafny model of its computational core

The dashboard monitors a car-body paint shop. A data provider keeps three
maps that a five-second timer refreshes: live readings per station, the
maintenance records and the quality records per quality parameter. The
screens draw these maps:

- the process-flow topology: station boxes and the connections routed
  between them;
- an X-bar/R control chart for the selected quality parameter;
- Cpk cards and indicators;
- the maintenance screen, with its equipment list and small trend charts;
- an alert list held by a second provider.

This project models the pure computations inside those components:

- **Control chart**: the X-bar/R engine. It windows the measurements,
  cuts them into subgroups of five, computes the centre lines and control
  limits with the Shewhart factors for n = 5 (A2 = 0.577, D3 = 0,
  D4 = 2.114), classifies points strictly, and maps them to plot
  coordinates.
- **Routing**: anchor points on a station box, connection routes through
  waypoints or as a synthesised orthogonal route, the zoom and reset
  controls, the toggling node selection, and the fixed station and
  connection tables of the layout.
- **Alert list**: a newest-first list capped at ten alerts, with add,
  dismiss by id and acknowledge by id.
- **Classification and scaling rules**:
  - status colours, box sizes, type styling, label font size and line
    placement of a station box;
  - Cpk banding and progress bars;
  - windowing, scaling and point colouring of the trend chart;
  - the clamped random-walk tick of the data provider;
  - the equipment list, the display names and the status tallies of the
    maintenance screen.

How JavaScript values are modelled:

- Numbers are `real`, so arithmetic is exact.
- A division of zero by zero, which is NaN in the code, is `None`.
- Truthiness of an optional number is `Common.Truthy`, meaning present and
  non-zero. `||` and `??` are modelled separately, since they differ on 0.
- `Math.random()` offsets and `Date.now()` readings are parameters.
- The enumeration order of `Object.keys` is a parameter: any duplicate-free
  listing of the keys.
- SVG path strings are modelled as point sequences.

Behaviour of the code that the model makes explicit:

- **Control-chart flags.** A shift in one subgroup moves the centre line
  for all of them. Take four batches of mean 20.8 and one of mean 30.2, all
  with range 2. The limits are 21.526 and 23.834, so the four unshifted
  subgroups fall below the lower limit and all five points are flagged.
  `ControlChart.OneShiftedBatchFlagsAll` states this in general: once the
  shift exceeds 5 · A2 · R̄, every subgroup is flagged.
- **Subgroup cap.** The code cuts the window into groups of five from its
  front (src/components/ControlChart.tsx:39-41) and keeps at most twenty.
  An incomplete trailing group, which holds the newest values, is dropped.
  `ControlChart.SubgroupsCoverWindowFront` states this.
- **Cp and Cpk.** The code never computes them: it only displays the
  values in the quality records, so they are inputs here.
- **Repeated clicks.** Two clicks on one station restore the previous
  selection only when nothing, or that same station, was selected. When a
  different station was selected, two clicks leave nothing selected.
- **Zero width.** The routing defaults box sizes with `??` and the drawing
  with `||`. An explicit zero width is therefore routed as zero but drawn
  120 wide. The fixed layout never states a zero size.

## Model

| member | source | states |
|---|---|---|
| Common.Clamp | src/contexts/DataContext.tsx:125 | `Math.max(lo, Math.min(hi, x))` lies in [lo, hi], keeps a value already inside, and sends a value outside to the nearer bound |
| Common.Round | src/components/QualityScreen.tsx:24 | `Math.round` gives the integer within half a unit, with halves rounded up |
| Stats.SeqMax | src/components/ControlChart.tsx:43 | `Math.max(...xs)` is an element of xs that bounds every element |
| Stats.SeqMin | src/components/ControlChart.tsx:43 | `Math.min(...xs)` is an element of xs bounded by every element |
| Stats.MeanWithinSpread | src/components/ControlChart.tsx:42-43 | the mean of a non-empty sequence lies between its minimum and its maximum |
| DataContext.TickStation | src/contexts/DataContext.tsx:120-135 | a truthy temperature becomes clamp(t + δ, 100, 300) and a truthy efficiency clamp(e + δ, 60, 100); an absent or zero reading is kept; a reading already in band moves by at most the offset bound; no other field changes |
| DataContext.TickProcessData | src/contexts/DataContext.tsx:118-138 | the tick keeps the station key set and steps every station with its own offsets |
| DataContext.TickQualityData | src/contexts/DataContext.tsx:140-149 | the tick keeps the parameter key set; every current value ends in [15, 35]: it moves by exactly its offset when that stays in band and otherwise lands on the bound it crossed; Cpk, Cp, trend and measurements are unchanged |
| DataContext.Tick | src/contexts/DataContext.tsx:116-153 | a tick keeps both key sets and the maintenance records; every station takes its `TickStation` step (status and histories unchanged) and every quality value becomes clamp(v + δ, 15, 35) with the rest of its record unchanged |
| DataContext.InitialMeasurements | src/contexts/DataContext.tsx:103-106 | the initial series has 25 measurements carrying the drawn values, each stamped with its own clock reading less 24 − i minutes: the last is stamped with its reading, and consecutive stamps differ by one minute plus the clock's advance |
| DataContext.InitialMeasurementsSpacing | src/contexts/DataContext.tsx:103-106 | with a clock that never runs backwards the initial measurements are in time order at least one minute apart, and exactly one minute apart when the clock does not move |
| DataContext.UseData | src/contexts/DataContext.tsx:162-167 | reading the data outside a provider is an error; inside, it is the provided state |
| ControlChart.Window | src/components/ControlChart.tsx:35 | the chart's window is the suffix of the newest min(n, 100) measurements |
| ControlChart.Values | src/components/ControlChart.tsx:41 | the value sequence carries the measurements' values position by position |
| ControlChart.MakeSubgroup | src/components/ControlChart.tsx:40-50 | subgroup i holds window values 5i .. 5i+4 and has sample number i + 1; its mean is the mean of those values and lies between their minimum and maximum; its range is max − min ≥ 0 |
| ControlChart.Subgroups | src/components/ControlChart.tsx:35-53 | a window of w values gives min(20, ⌊w/5⌋) subgroups; subgroup i is exactly the values 5i .. 5i+4 with sample number i + 1, mean within spread and range max − min ≥ 0 |
| ControlChart.BuildSubgroups | src/components/ControlChart.tsx:39-51 | the subgroup loop yields exactly the subgroups above, in order |
| ControlChart.SubgroupLoop | src/components/ControlChart.tsx:39-51 | after the loop, position j holds subgroup j of the window for every j below the subgroup count |
| ControlChart.SubgroupsCoverWindowFront | src/components/ControlChart.tsx:39-41 | the concatenated subgroups are exactly the first 5k window values, so any incomplete group of the newest values is left out |
| ControlChart.ComputeLimits | src/components/ControlChart.tsx:57-71 | an empty chart has no limits (0/0); otherwise the centre lines are the mean of the subgroup means and the mean of the ranges, UCL − centre = centre − LCL = 0.577 · R̄, rUCL = 2.114 · R̄, rLCL = 0, both centre lines lie within the spread of what they average, and with non-negative ranges 0 ≤ R̄ ≤ rUCL and LCL ≤ centre ≤ UCL |
| ControlChart.IsOutOfControl | src/components/ControlChart.tsx:94 | a point is in control exactly when lcl ≤ value ≤ ucl, so a value on a limit is not flagged |
| ControlChart.ComputeScales | src/components/ControlChart.tsx:81-88 | the X-bar axis covers every mean and both limits, and each of its ends is a mean or the limit on that side; the R axis covers every range and rUCL, and its top is a range or rUCL; both spans equal the extent when it is non-zero and 1 when it is zero |
| ControlChart.BuildChart | src/components/ControlChart.tsx:35-88 | a chart exists exactly when the window holds at least five measurements; it carries the subgroups, their limits and their scales |
| ControlChart.AxisY | src/components/ControlChart.tsx:90-91 | a vertical axis puts its top value exactly at the top margin (20) and the value one span below it at the bottom of the plot (160) |
| ControlChart.XBarY | src/components/ControlChart.tsx:90 | `getXBarY` puts exactly the X-bar axis maximum at the top margin and the value one span below it at the bottom of the plot |
| ControlChart.RY | src/components/ControlChart.tsx:91 | `getRY` puts exactly the R axis maximum at the top margin and the value one span below it at the bottom of the plot |
| ControlChart.AxisYAffine | src/components/ControlChart.tsx:90-91 | both axes are straight-line maps: two values are drawn (b − a) / span · 140 apart, and on a positive span the larger value is drawn higher |
| ControlChart.FlaggedMeanDrawnOutsideLimits | src/components/ControlChart.tsx:90 | a subgroup mean flagged above the UCL is drawn above the UCL line, and one flagged below the LCL below the LCL line |
| ControlChart.PlotX | src/components/ControlChart.tsx:92 | with one point the x position is 0/0 (none); otherwise it lies in [60, 420], with the first point at 60 and the last at 420 |
| ControlChart.PlotXEquallySpaced | src/components/ControlChart.tsx:92 | consecutive points are exactly 360 / (n − 1) apart |
| ControlChart.AxisMapInPlot | src/components/ControlChart.tsx:90-91 | a value within the axis extent maps into the vertical band [20, 160] |
| ControlChart.XBarPointsInPlot | src/components/ControlChart.tsx:81-90 | every subgroup mean, the centre line and both X-bar limits map into [20, 160] |
| ControlChart.RPointsInPlot | src/components/ControlChart.tsx:85-91 | every subgroup range, R̄, rUCL and rLCL map into [20, 160] |
| ControlChart.BuiltChartInPlot | src/components/ControlChart.tsx:81-92 | every chart built from measurements draws its points inside the plot |
| ControlChart.MeanFlags | src/components/ControlChart.tsx:156 | a mean is marked exactly when it lies outside [LCL, UCL] |
| ControlChart.RangeFlags | src/components/ControlChart.tsx:280 | a range is marked exactly when it lies outside [rLCL, rUCL] |
| ControlChart.RangeFlaggedOnlyAbove | src/components/ControlChart.tsx:70-71 | since D3 = 0 and ranges are non-negative, a range is marked only for exceeding rUCL |
| ControlChart.InitialSeriesHasFiveSubgroups | src/components/ControlChart.tsx:39 | the provider's initial 25-value series always charts as exactly five subgroups |
| ControlChart.OneShiftedBatchFlagsAll | src/components/ControlChart.tsx:57-67 | with five equal-range subgroups, one shifted by more than 5 · A2 · R̄, the centre is (4a + b)/5, the shifted subgroup lies above UCL, and all five subgroups are out of control |
| ProcessFlow.HalfWidth | src/components/ProcessFlow.tsx:190 | half the width, 60 when the width is absent; an explicit zero is kept (`??`) |
| ProcessFlow.Center | src/components/ProcessFlow.tsx:172-175 | `getNodePosition`: a station's (x, y) is the centre its anchors are measured from |
| ProcessFlow.HalfHeight | src/components/ProcessFlow.tsx:191 | half the height, 25 when the height is absent; an explicit zero is kept |
| ProcessFlow.FacingSide | src/components/ProcessFlow.tsx:193-200 | left/right exactly when the horizontal offset strictly dominates, with the sign of dx; top/bottom otherwise, ties included |
| ProcessFlow.EdgePoint | src/components/ProcessFlow.tsx:187-201 | the anchor is ten units outside the middle of the facing side |
| ProcessFlow.Find | src/components/ProcessFlow.tsx:179-180 | `find` returns the first station with the id, and nothing exactly when no station has it |
| ProcessFlow.FindUniqueId | src/components/ProcessFlow.tsx:179-180 | with unique ids, looking up a station's id returns that station |
| ProcessFlow.SameRowUsesSideAnchors | src/components/ProcessFlow.tsx:196-197 | two stations on one row connect through their facing left and right anchors |
| ProcessFlow.OrthogonalRoute | src/components/ProcessFlow.tsx:222-230 | the route without waypoints has four points from start to end, three axis-parallel segments, and its bend at the midpoint of the axis of larger span |
| ProcessFlow.ConnectionPath | src/components/ProcessFlow.tsx:178-231 | the path is empty exactly when an endpoint station is missing; with k waypoints it has k + 2 points: the from-anchor toward the target, the waypoints in order, and the to-anchor toward the last waypoint; without waypoints it is exactly `OrthogonalRoute` between the two facing anchors |
| ProcessFlow.ApplyView | src/components/ProcessFlow.tsx:166-170 | the wheel always yields a scale in [0.4, 2]: the unclamped step when that is in range, otherwise the bound it crossed; zoom in adds 0.2 but stops at exactly 2, zoom out subtracts 0.2 but stops at exactly 0.4; reset gives scale 0.8 and pan (0, 0); only reset moves the pan |
| ProcessFlow.ScaleStaysInRange | src/components/ProcessFlow.tsx:373-385 | from a scale in [0.4, 2], no sequence of wheel turns and button presses leaves that range |
| ProcessFlow.NodeClick | src/components/ProcessFlow.tsx:233-237 | a click at the end of a drag changes nothing; otherwise clicking the selected station deselects it and clicking any other selects it |
| ProcessFlow.ClickTwice | src/components/ProcessFlow.tsx:233-237 | two plain clicks on one station restore the selection when nothing or that station was selected, and leave nothing selected when another station was |
| FlowLayout.NodeIdsUnique | src/components/ProcessFlow.tsx:35-82 | no two stations of the fixed layout share an id |
| FlowLayout.EveryStationFoundByItsId | src/components/ProcessFlow.tsx:35-82 | looking up each station's id returns that very station |
| FlowLayout.EveryEndpointResolves | src/components/ProcessFlow.tsx:85-131 | both endpoints of every fixed connection name a station of the layout |
| FlowLayout.EveryConnectionDrawn | src/components/ProcessFlow.tsx:85-131 | no fixed connection renders as an empty path |
| ProcessNode.StatusTone | src/components/ProcessNode.tsx:16-21 | red exactly for 'critical', amber exactly for 'warning', green for no data and for every other status, 'normal' included |
| ProcessNode.Shades | src/components/ProcessNode.tsx:16-21 | each tone's stroke is its rgb colour and its halo the same channels at 0.2 opacity; the three strokes are distinct |
| ProcessNode.StatusColors | src/components/ProcessNode.tsx:16-21 | `getStatusColor` gives the red stroke exactly for 'critical', the amber one exactly for 'warning' and the green one for no data and every other status, each with its matching halo |
| ProcessNode.NodeDimensions | src/components/ProcessNode.tsx:23-28 | a missing or zero width or height falls back to 120 × 50 (`||`), so a drawn box never has a zero side |
| ProcessNode.ZeroWidthDrawnWideButRoutedNarrow | src/components/ProcessNode.tsx:23-28 | for an explicit zero width the routing uses half-width 0 while the box is drawn 120 wide |
| ProcessNode.StyleFor | src/components/ProcessNode.tsx:30-75 | a dash pattern exactly for 'storage' ('5,5') and 'destination' ('3,3'); opacity 0.95 exactly for 'oven' and 'destination' and 0.9 otherwise; radius 8 exactly for 'storage' and 'destination', 6 exactly for 'booth', 4 otherwise; each of the five listed types has its own icon (📦, 🔥, 🎨, ⚙️, 🎯); any other type gets the default style (4, no dash, 0.9, ⚡) |
| ProcessNode.StripNewlines | src/components/ProcessNode.tsx:83 | removing the line breaks leaves the label length minus the number of breaks, with no break left |
| ProcessNode.SplitLines | src/components/ProcessNode.tsx:85 | splitting at line breaks gives one line more than there are breaks, none containing a break |
| ProcessNode.SplitJoinRoundTrip | src/components/ProcessNode.tsx:98 | joining the split lines with line breaks gives back the label |
| ProcessNode.NonBlankLabelHasText | src/components/ProcessNode.tsx:83 | a label with a character other than a line break has a non-zero text length |
| ProcessNode.FontSize | src/components/ProcessNode.tsx:82-95 | the font size always lies in [8, 14]; for a label with text it is the width-and-height heuristic when that lies in [8, 14], 8 when the heuristic is below and 14 when above; a label of line breaks only takes the height-based size for a positive width (the width term is +Infinity) and 8 for a negative one |
| ProcessNode.BaseFontSize | src/components/ProcessNode.tsx:88-91 | the unclamped size is the smaller of the width-based size width / (length / lines · 0.8) and the height-based size height / (lines · 1.8) |
| ProcessNode.LineYs | src/components/ProcessNode.tsx:147-148 | label lines are symmetric about the box centre and fontSize + 2 apart |
| ProcessNode.LineOffset | src/components/ProcessNode.tsx:148 | the middle line of an odd number of lines sits on the box centre; with a positive spacing the earlier lines sit above it and the later ones below |
| ProcessNode.EfficiencyBar | src/components/ProcessNode.tsx:203-212 | the bar exists exactly for a truthy efficiency; its width is that percentage of the box width; it has the status colour above 80 % and amber otherwise; it stays within the box for efficiencies in [0, 100] |
| ProcessNode.TemperatureLabelFor | src/components/ProcessNode.tsx:189-200 | the label appears exactly for a truthy temperature, so 0 °C is hidden; it shows the temperature rounded to the nearest integer, at exactly 70 % of the label size when that is at least 8 and at exactly 8 otherwise |
| ProcessNode.Pulses | src/components/ProcessNode.tsx:173 | the status dot pulses exactly for a station reported 'normal', which is always green |
| AlertList.DecimalString | src/contexts/AlertContext.tsx:28 | `toString` of a clock reading is a non-empty string of decimal digits |
| AlertList.DecimalRoundTrip | src/contexts/AlertContext.tsx:28 | reading the decimal id back gives the clock reading |
| AlertList.IdsDistinguishTimes | src/contexts/AlertContext.tsx:28 | two alerts share an id exactly when they were raised at the same millisecond |
| AlertList.AddAlert | src/contexts/AlertContext.tsx:25-33 | the list grows to min(10, n + 1); the new alert is first, unacknowledged, stamped with the clock and carrying the caller's fields; the rest are the previous newest alerts in order |
| AlertList.Dismiss | src/contexts/AlertContext.tsx:35-37 | every alert with the id is removed and every other alert kept; the length drops by the number of matching alerts; an unknown id leaves the list unchanged |
| AlertList.DismissConcat | src/contexts/AlertContext.tsx:36 | dismissal works piecewise over a concatenation, so the survivors keep their relative order |
| AlertList.DismissIdempotent | src/contexts/AlertContext.tsx:35-37 | dismissing an id twice is dismissing it once |
| AlertList.Acknowledge | src/contexts/AlertContext.tsx:39-45 | length and order are kept; exactly the alerts with the id become acknowledged; no other field of any alert changes; an unknown id leaves the list unchanged |
| AlertList.AcknowledgeIdempotent | src/contexts/AlertContext.tsx:39-45 | acknowledging an id twice is acknowledging it once |
| AlertList.DismissAfterAcknowledge | src/contexts/AlertContext.tsx:35-45 | acknowledging before dismissing the same id makes no difference |
| AlertList.ReplayKeepsCap | src/contexts/AlertContext.tsx:32 | from a list of at most ten, no sequence of operations holds more than ten alerts |
| AlertList.UseAlerts | src/contexts/AlertContext.tsx:87-92 | reading the alerts outside a provider is an error; inside, it is the provided list |
| TrendChart.ChartData | src/components/TrendChart.tsx:12-18 | an empty input falls to the synthetic sample; otherwise the chart shows the last min(20, n) readings, a suffix of the input |
| TrendChart.ScaleFor | src/components/TrendChart.tsx:20-26 | the extent covers every plotted value and the specification band, its ends are data or specification values, and the range equals the extent when that is non-zero and 1 when it is flat |
| TrendChart.PointY | src/components/TrendChart.tsx:111 | the bottom of the extent is drawn at 100 and the value one range above it at 40 |
| TrendChart.PointYAffine | src/components/TrendChart.tsx:111 | the trend chart's vertical map is a straight line: two values are drawn (b − a) / range · 60 apart, and the larger value is drawn higher |
| TrendChart.YInBand | src/components/TrendChart.tsx:111 | a value inside the extent maps into [40, 100], the bottom of the extent to 100 and the top to 40 |
| TrendChart.PlottedInBand | src/components/TrendChart.tsx:109-111 | every plotted reading and both lines of a consistent specification lie in [40, 100] |
| TrendChart.PointX | src/components/TrendChart.tsx:110 | with one point the x position is 0/0 (none); otherwise it lies in [20, 300], the first point at 20 and the last at 300 |
| TrendChart.PointXEquallySpaced | src/components/TrendChart.tsx:110 | consecutive points are exactly 280 / (count − 1) apart |
| TrendChart.ColourFor | src/components/TrendChart.tsx:113-121 | with a specification, red exactly outside [min, max]; amber exactly inside it but above 0.9 · max or below 1.1 · min; otherwise, and always without a specification, the series colour |
| TrendChart.TargetLineY | src/components/TrendChart.tsx:84-95 | the target line is drawn exactly for a truthy target, at the height where the target value itself is plotted, and inside [40, 100] when the target is within the extent |
| Capability.BandOf | src/components/QualityCard.tsx:22-26 | Capable exactly at Cpk ≥ 1.33, Marginal exactly on [1.0, 1.33), Not Capable exactly below 1.0 |
| Capability.BandPresentationsDistinct | src/components/QualityCard.tsx:72-88 | distinct bands have distinct labels, bar colours and text colours |
| Capability.CardDefaults | src/components/QualityCard.tsx:18-20 | a missing or zero Cpk shows 1.2, a missing or zero current value shows the target, a missing or empty trend shows 'stable'; truthy values are shown as recorded |
| Capability.MissingRecordIsMarginal | src/components/QualityCard.tsx:18-26 | a card without a record shows a marginal process |
| Capability.CardStatus | src/components/QualityCard.tsx:22-26 | the card's text, background and border colours are each those of the Cpk band, one distinct class per band |
| Capability.CardLabel | src/components/QualityCard.tsx:73 | the card's label names the Cpk band |
| Capability.CardBarClass | src/components/QualityCard.tsx:88 | the card's bar colour is the band's |
| Capability.CardAgrees | src/components/QualityCard.tsx:72-88 | label, bar colour and text colour of a card always name the same band |
| Capability.BarWidth | src/components/QualityCard.tsx:90 | the bar width (also CPKIndicator.tsx:90) is 50 · Cpk below Cpk 2, never above 100, exactly 100 from Cpk 2, and non-negative for non-negative Cpk |
| Capability.TrendIconFor | src/components/QualityCard.tsx:30-39 | 'up' gives the rising icon and 'down' the falling one; anything else gives the check icon |
| Capability.IndicatorDefaults | src/components/CPKIndicator.tsx:18-19 | the indicator uses the recorded Cpk and Cp exactly when they are truthy |
| Capability.IndicatorStatusFor | src/components/CPKIndicator.tsx:21-40 | the indicator's status and text colour name the Cpk band, its background is the band's bg-…-500/10 class, and the check icon is shown exactly for Capable |
| Capability.IndicatorBarClass | src/components/CPKIndicator.tsx:88 | the indicator's bar colour is the band's |
| Capability.CardAndIndicatorAgree | src/components/CPKIndicator.tsx:18-40 | for a recorded non-zero Cpk, card and indicator show the same value, label and bar colour |
| QualityScreen.DefaultSelectionListed | src/components/QualityScreen.tsx:10-13 | the parameter selected on first display is in the parameter table |
| QualityScreen.CountInControl | src/components/QualityScreen.tsx:22 | the in-control count is at most the table size, equals it exactly when every parameter has a record with Cpk ≥ 1.33, and is zero exactly when none has |
| QualityScreen.InControl | src/components/QualityScreen.tsx:22 | a parameter is in control exactly when it has a record whose Cpk lies in the Capable band; a missing record is not in control |
| QualityScreen.ParameterTableWellFormed | src/components/QualityScreen.tsx:10-17 | the six parameters of the table have distinct ids and positive tolerances |
| QualityScreen.InControlMatchesCards | src/components/QualityScreen.tsx:22 | the in-control count equals the number of cards shown in the capable band |
| QualityScreen.OverallQualityStatus | src/components/QualityScreen.tsx:21-25 | total is 6; the in-control count is the number of parameters whose record has Cpk ≥ 1.33; the percentage is that count over 6 as a percentage, rounded, lies in [0, 100], is 100 exactly when every parameter is in control and 0 exactly when none is |
| QualityScreen.OutOfControl | src/components/QualityScreen.tsx:68 | the in-control and out-of-control tiles add up to the table size |
| Maintenance.UpperCase | src/components/MaintenanceScreen.tsx:13 | the callback of `/\b\w/g` only ever receives an ASCII word character, and on those `toUpperCase` lifts exactly a–z and keeps digits, `_` and capitals; other characters are never passed to it (JavaScript's `toUpperCase` would also lift letters such as 'é') |
| Maintenance.DashesToSpaces | src/components/MaintenanceScreen.tsx:13 | replacing dashes keeps the length and word characters, and leaves no dash |
| Maintenance.DisplayName | src/components/MaintenanceScreen.tsx:13 | the display name has the id's length and no dash; a word character at the start of a word is upper-cased and every other character is kept |
| Maintenance.CapitaliseWords | src/components/MaintenanceScreen.tsx:13 | the length is kept; a character starting a word is no longer a lower-case letter but still a word character; every other character is unchanged |
| Maintenance.DisplayNameIdempotent | src/components/MaintenanceScreen.tsx:13 | formatting a display name again changes nothing |
| Maintenance.DisplayNameExample | src/components/MaintenanceScreen.tsx:13 | "ced-s" is shown as "Ced S" |
| Maintenance.EquipmentList | src/components/MaintenanceScreen.tsx:11-16 | one entry per station key, in listing order with distinct ids, each carrying the key's reading, its display name and its maintenance record when there is one |
| Maintenance.StatusTalliesCoverList | src/components/MaintenanceScreen.tsx:18-30 | with only the three known statuses, the normal, warning and critical tallies add up to the list length |
| Maintenance.CountStatus | src/components/MaintenanceScreen.tsx:18-30 | a status tally is at most the list length, is zero exactly when no entry has that status, and equals the length exactly when every entry has it |
| Maintenance.Selected | src/components/MaintenanceScreen.tsx:103 | a selection yields a reading exactly when it is non-empty and names a station |
| Maintenance.TrendInputs | src/components/MaintenanceScreen.tsx:101-127 | four charts with their fixed titles and specification bands; with no usable selection all four fall to the synthetic sample, otherwise they plot the station's four histories |
| Maintenance.TrendsHeading | src/components/MaintenanceScreen.tsx:93-97 | the heading is the selected station's display name followed by " Trends", or "Overall System Trends" |

## Left out

- The synthetic and random data paths:
  - the sample subgroups of the control chart (src/components/ControlChart.tsx:16-31);
  - the sine sample of the trend chart (src/components/TrendChart.tsx:13-16);
  - the random Cpk/Cp fallback of the indicator (src/components/CPKIndicator.tsx:18-19);
  - the random initial state of the data provider (src/contexts/DataContext.tsx:49-113);
  - the random alert injection (src/contexts/AlertContext.tsx:48-77).
  Their output is random, so the model only marks where they take over:
  `TrendChart.Synthetic`, and `None` in the indicator.
- Timers, React state hooks, context wiring and re-rendering. One tick and
  one operation are pure functions instead.
- Panning and dragging (src/components/ProcessFlow.tsx:138-164). This is
  floating-point geometry on mouse events. The drag distance is a
  parameter of the click.
- SVG and JSX output, CSS strings other than the band and status
  classes, `toFixed`, `toLocaleTimeString`, `parseInt` of the border
  radius, and `line.trim()` of label lines.
- How Cp and Cpk are computed: the code never computes them.
- The hard-coded figures 'Overall CPK 1.45' and 'Maintenance Due 3'. They
  are constants, not derived values.
- The UI shells App.tsx, Header.tsx, AlertPanel.tsx, EquipmentCard.tsx and
  DetailModal.tsx. Their status switches and name formatting repeat
  ProcessNode and MaintenanceScreen.
- Floating-point rounding, and NaN and Infinity as values. A 0/0 becomes
  `None`. The one division by zero that gives Infinity is handled in
  `ProcessNode.FontSize`.
- The optional `style` field of a connection, which the drawing never reads.
- ProcessNode.FontSize: requires a non-zero box width. `getNodeDimensions`
  guarantees one, and a zero width would give NaN.
- AlertList.AddAlert: one clock reading stamps both the id and the
  timestamp. The code reads `Date.now()` twice, and the two readings can
  differ by a millisecond.
- DataContext.TickStation: requires the random offsets to lie in their
  ranges, [-2.5, 2.5) and [-1, 1). `Math.random()` guarantees this.
- ProcessNode.FontSize: counts characters where JavaScript's `.length`
  counts UTF-16 code units, so a label with characters outside the Basic
  Multilingual Plane is measured shorter than the code measures it.
- DataContext.InitialMeasurements: takes the 25 clock readings as a
  parameter. The code reads `Date.now()` once per element, and the model
  does not promise that those readings are ordered or equal; the exact
  one-minute spacing holds only for readings that are equal
  (`DataContext.InitialMeasurementsSpacing`).
- Maintenance.EquipmentList: requires the key listing to be duplicate-free
  and to cover the map, as `Object.keys` guarantees. The order itself is
  left open.
