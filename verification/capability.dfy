/** The process-capability views of a quality parameter: the quality card
    and the Cpk indicator. Both band a Cpk value into capable (>= 1.33),
    marginal ([1.0, 1.33)) and not capable (< 1.0); each view computes the
    band anew for every element it colours, so the model keeps those
    computations separate and proves that they agree. */
module Capability {
  import opened Common
  import DataContext

  type QualityRecord = DataContext.QualityRecord

  datatype Band = Capable | Marginal | NotCapable

  const CapableThreshold: real := 1.33
  const MarginalThreshold: real := 1.0

  /** The band of a Cpk value; the three bands partition the reals. */
  function BandOf(cpk: real): (b: Band)
    ensures b == Capable <==> cpk >= CapableThreshold
    ensures b == Marginal <==> MarginalThreshold <= cpk < CapableThreshold
    ensures b == NotCapable <==> cpk < MarginalThreshold
  {
    if cpk >= CapableThreshold then Capable
    else if cpk >= MarginalThreshold then Marginal
    else NotCapable
  }

  /** The text shown for a band (the card's label, the indicator's status). */
  function BandLabel(b: Band): string {
    match b
    case Capable => "Capable"
    case Marginal => "Marginal"
    case NotCapable => "Not Capable"
  }

  /** The fill class of a band's progress bar. */
  function BandBarClass(b: Band): string {
    match b
    case Capable => "bg-green-400"
    case Marginal => "bg-yellow-400"
    case NotCapable => "bg-red-400"
  }

  /** The text colour class of a band. */
  function BandTextClass(b: Band): string {
    match b
    case Capable => "text-green-400"
    case Marginal => "text-yellow-400"
    case NotCapable => "text-red-400"
  }

  lemma BandPresentationsDistinct(a: Band, b: Band)
    ensures BandLabel(a) == BandLabel(b) <==> a == b
    ensures BandBarClass(a) == BandBarClass(b) <==> a == b
    ensures BandTextClass(a) == BandTextClass(b) <==> a == b
  {
  }

  // ---------------------------------------------------------------- card

  function CpkOf(data: Option<QualityRecord>): Option<real> {
    if data.Some? then Some(data.value.cpk) else None
  }

  function CpOf(data: Option<QualityRecord>): Option<real> {
    if data.Some? then Some(data.value.cp) else None
  }

  function CurrentValueOf(data: Option<QualityRecord>): Option<real> {
    if data.Some? then Some(data.value.currentValue) else None
  }

  /** What the card displays after defaulting the parameter's record. */
  datatype CardValues = CardValues(cpk: real, currentValue: real, trend: string)

  /** `data?.cpk || 1.2`, `data?.currentValue || target` and
      `data?.trend || 'stable'`: a missing record, a zero number or an empty
      trend all fall back to the defaults. */
  function CardDefaults(data: Option<QualityRecord>, target: real): (v: CardValues)
    ensures Truthy(CpkOf(data)) ==> v.cpk == data.value.cpk
    ensures !Truthy(CpkOf(data)) ==> v.cpk == 1.2
    ensures Truthy(CurrentValueOf(data)) ==> v.currentValue == data.value.currentValue
    ensures !Truthy(CurrentValueOf(data)) ==> v.currentValue == target
    ensures data.Some? && data.value.trend != "" ==> v.trend == data.value.trend
    ensures data.None? || data.value.trend == "" ==> v.trend == "stable"
    ensures v.cpk != 0.0 && v.trend != ""
  {
    CardValues(
      OrDefault(CpkOf(data), 1.2),
      OrDefault(CurrentValueOf(data), target),
      if data.Some? && data.value.trend != "" then data.value.trend else "stable")
  }

  /** A card with no record shows a marginal process. */
  lemma MissingRecordIsMarginal(target: real)
    ensures BandOf(CardDefaults(None, target).cpk) == Marginal
  {
  }

  datatype CardStyle = CardStyle(color: string, bg: string, border: string)

  /** `getCPKStatus` of the card. */
  function CardStatus(cpk: real): (s: CardStyle)
    ensures s.color == BandTextClass(BandOf(cpk))
    ensures s.bg == "bg-green-500/20" <==> BandOf(cpk) == Capable
    ensures s.bg == "bg-yellow-500/20" <==> BandOf(cpk) == Marginal
    ensures s.bg == "bg-red-500/20" <==> BandOf(cpk) == NotCapable
    ensures s.border == "border-green-500/30" <==> BandOf(cpk) == Capable
    ensures s.border == "border-yellow-500/30" <==> BandOf(cpk) == Marginal
    ensures s.border == "border-red-500/30" <==> BandOf(cpk) == NotCapable
  {
    if cpk >= 1.33 then CardStyle("text-green-400", "bg-green-500/20", "border-green-500/30")
    else if cpk >= 1.0 then CardStyle("text-yellow-400", "bg-yellow-500/20", "border-yellow-500/30")
    else CardStyle("text-red-400", "bg-red-500/20", "border-red-500/30")
  }

  /** The card's capability label. */
  function CardLabel(cpk: real): (l: string)
    ensures l == BandLabel(BandOf(cpk))
  {
    if cpk >= 1.33 then "Capable" else if cpk >= 1.0 then "Marginal" else "Not Capable"
  }

  /** The card's progress-bar fill. */
  function CardBarClass(cpk: real): (c: string)
    ensures c == BandBarClass(BandOf(cpk))
  {
    if cpk >= 1.33 then "bg-green-400" else if cpk >= 1.0 then "bg-yellow-400" else "bg-red-400"
  }

  /** The card's colours, label and bar always tell the same band. */
  lemma CardAgrees(cpk: real, b: Band)
    ensures CardLabel(cpk) == BandLabel(b) <==> CardBarClass(cpk) == BandBarClass(b)
    ensures CardStatus(cpk).color == BandTextClass(b) <==> CardLabel(cpk) == BandLabel(b)
  {
    BandPresentationsDistinct(BandOf(cpk), b);
  }

  /** The width, in percent, of a Cpk progress bar: Cpk 2 fills it. */
  function BarWidth(cpk: real): (w: real)
    ensures w <= 100.0
    ensures w == 100.0 <==> cpk >= 2.0
    ensures cpk < 2.0 ==> w == 50.0 * cpk
    ensures cpk >= 0.0 ==> w >= 0.0
  {
    Min(cpk / 2.0 * 100.0, 100.0)
  }

  datatype TrendIcon = TrendingUp | TrendingDown | CheckCircle

  /** The card's trend icon. */
  function TrendIconFor(trend: string): (i: TrendIcon)
    ensures i == TrendingUp <==> trend == "up"
    ensures i == TrendingDown <==> trend == "down"
  {
    match trend
    case "up" => TrendingUp
    case "down" => TrendingDown
    case _ => CheckCircle
  }

  // ----------------------------------------------------------- indicator

  /** The indicator's numbers. Without a truthy Cpk (or Cp) in the record the
      indicator draws a random one, which is not modelled: the field is
      then `None`. */
  datatype IndicatorValues = IndicatorValues(cpk: Option<real>, cp: Option<real>)

  function IndicatorDefaults(data: Option<QualityRecord>): (v: IndicatorValues)
    ensures v.cpk.Some? <==> Truthy(CpkOf(data))
    ensures v.cpk.Some? ==> v.cpk.value == data.value.cpk
    ensures v.cp.Some? <==> Truthy(CpOf(data))
    ensures v.cp.Some? ==> v.cp.value == data.value.cp
  {
    IndicatorValues(
      if Truthy(CpkOf(data)) then CpkOf(data) else None,
      if Truthy(CpOf(data)) then CpOf(data) else None)
  }

  datatype StatusIcon = CheckIcon | TriangleIcon

  datatype IndicatorStatus = IndicatorStatus(color: string, bg: string, icon: StatusIcon, status: string)

  /** `getCPKStatus` of the indicator. */
  function IndicatorStatusFor(cpk: real): (s: IndicatorStatus)
    ensures s.status == BandLabel(BandOf(cpk))
    ensures s.color == BandTextClass(BandOf(cpk))
    ensures s.icon == CheckIcon <==> BandOf(cpk) == Capable
    ensures s.bg == "bg-green-500/10" <==> BandOf(cpk) == Capable
    ensures s.bg == "bg-yellow-500/10" <==> BandOf(cpk) == Marginal
    ensures s.bg == "bg-red-500/10" <==> BandOf(cpk) == NotCapable
  {
    if cpk >= 1.33 then IndicatorStatus("text-green-400", "bg-green-500/10", CheckIcon, "Capable")
    else if cpk >= 1.0 then IndicatorStatus("text-yellow-400", "bg-yellow-500/10", TriangleIcon, "Marginal")
    else IndicatorStatus("text-red-400", "bg-red-500/10", TriangleIcon, "Not Capable")
  }

  /** The indicator's bar fill. */
  function IndicatorBarClass(cpk: real): (c: string)
    ensures c == BandBarClass(BandOf(cpk))
  {
    if cpk >= 1.33 then "bg-green-400" else if cpk >= 1.0 then "bg-yellow-400" else "bg-red-400"
  }

  /** Card and indicator tell the same story about a recorded Cpk. */
  lemma CardAndIndicatorAgree(data: QualityRecord, target: real)
    requires data.cpk != 0.0
    ensures IndicatorDefaults(Some(data)).cpk == Some(CardDefaults(Some(data), target).cpk)
    ensures IndicatorStatusFor(data.cpk).status == CardLabel(CardDefaults(Some(data), target).cpk)
    ensures IndicatorBarClass(data.cpk) == CardBarClass(CardDefaults(Some(data), target).cpk)
  {
  }
}
