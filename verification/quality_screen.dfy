/** The quality overview: the fixed table of six monitored parameters and
    the in-control summary computed from the provider's quality records. */
module QualityScreen {
  import opened Common
  import DataContext
  import Capability

  type QualityRecord = DataContext.QualityRecord

  datatype Parameter = Parameter(id: string, name: string, unit: string, target: real, tolerance: real)

  const Parameters: seq<Parameter> := [
    Parameter("coating-thickness", "Coating Thickness", "μm", 25.0, 2.0),
    Parameter("cure-temperature", "Cure Temperature", "°C", 180.0, 5.0),
    Parameter("humidity", "Humidity", "%RH", 45.0, 10.0),
    Parameter("cure-time", "Cure Time", "min", 20.0, 2.0),
    Parameter("adhesion", "Adhesion", "MPa", 15.0, 2.0),
    Parameter("gloss-level", "Gloss Level", "GU", 85.0, 5.0)
  ]

  const DefaultSelection: string := "coating-thickness"

  /** The parameter selected on first display is one of the table's. */
  lemma DefaultSelectionListed()
    ensures exists i :: 0 <= i < |Parameters| && Parameters[i].id == DefaultSelection
  {
    assert Parameters[0].id == DefaultSelection;
  }

  function Lookup(data: map<string, QualityRecord>, id: string): Option<QualityRecord> {
    if id in data then Some(data[id]) else None
  }

  /** `qualityData[p.id]?.cpk >= 1.33`: a missing record compares false. */
  function InControl(data: map<string, QualityRecord>, p: Parameter): (b: bool)
    ensures b <==> p.id in data && Capability.BandOf(data[p.id].cpk) == Capability.Capable
  {
    p.id in data && data[p.id].cpk >= Capability.CapableThreshold
  }

  /** Every row of the parameter table has its own id and a positive tolerance. */
  lemma ParameterTableWellFormed()
    ensures forall i, j :: 0 <= i < j < |Parameters| ==> Parameters[i].id != Parameters[j].id
    ensures forall i :: 0 <= i < |Parameters| ==> Parameters[i].tolerance > 0.0
  {
  }

  /** The number of parameters counted as in control. */
  function CountInControl(params: seq<Parameter>, data: map<string, QualityRecord>): (n: nat)
    ensures n <= |params|
    ensures n == |params| <==> forall i :: 0 <= i < |params| ==> InControl(data, params[i])
    ensures n == 0 <==> forall i :: 0 <= i < |params| ==> !InControl(data, params[i])
  {
    if |params| == 0 then 0
    else
      var rest := CountInControl(params[1..], data);
      assert forall i :: 1 <= i < |params| ==> params[i] == params[1..][i - 1];
      (if InControl(data, params[0]) then 1 else 0) + rest
  }

  /** The number of parameters whose quality card shows the capable band. */
  function CountCapableCards(params: seq<Parameter>, data: map<string, QualityRecord>): nat {
    if |params| == 0 then 0
    else
      var card := Capability.CardDefaults(Lookup(data, params[0].id), params[0].target);
      (if Capability.BandOf(card.cpk) == Capability.Capable then 1 else 0) + CountCapableCards(params[1..], data)
  }

  /** The summary's in-control count is exactly the number of cards drawn
      in the capable band: a missing record or a zero Cpk shows the default
      1.2, which is marginal, and is not counted either. */
  lemma {:induction false} InControlMatchesCards(params: seq<Parameter>, data: map<string, QualityRecord>)
    ensures CountInControl(params, data) == CountCapableCards(params, data)
  {
    if |params| > 0 {
      InControlMatchesCards(params[1..], data);
    }
  }

  datatype OverallStatus = OverallStatus(inControl: nat, total: nat, percentage: int)

  /** `getOverallQualityStatus` */
  function OverallQualityStatus(data: map<string, QualityRecord>): (s: OverallStatus)
    ensures s.total == |Parameters| == 6
    ensures s.inControl == CountInControl(Parameters, data)
    ensures s.percentage == Round(s.inControl as real / 6.0 * 100.0)
    ensures s.inControl <= s.total
    ensures 0 <= s.percentage <= 100
    ensures s.percentage == 100 <==> forall i :: 0 <= i < |Parameters| ==> InControl(data, Parameters[i])
    ensures s.percentage == 0 <==> forall i :: 0 <= i < |Parameters| ==> !InControl(data, Parameters[i])
  {
    var inControl := CountInControl(Parameters, data);
    var total := |Parameters|;
    var exact := (inControl as real) / (total as real) * 100.0;
    assert inControl < total ==> exact <= 500.0 / 6.0;
    assert inControl > 0 ==> exact >= 100.0 / 6.0;
    OverallStatus(inControl, total, Round(exact))
  }

  /** The out-of-control tile shows the rest of the table. */
  function OutOfControl(s: OverallStatus): (n: int)
    ensures s.inControl <= s.total ==> n >= 0
    ensures n + s.inControl == s.total
  {
    s.total - s.inControl
  }
}
