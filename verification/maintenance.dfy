/** The maintenance screen: the equipment list built from the provider's
    station records, the display names derived from station ids, the
    status tallies and the inputs of the four trend charts.

    `Object.keys` order is an input here: any duplicate-free listing of the
    station keys. */
module Maintenance {
  import opened Common
  import DataContext
  import TrendChart

  type ProcessReading = DataContext.ProcessReading
  type MaintenanceRecord = DataContext.MaintenanceRecord

  // ------------------------------------------------------ display names

  /** `\w` of a JavaScript regular expression: ASCII letters, digits, `_`. */
  predicate IsWordChar(c: char) {
    ('a' <= c <= 'z') || ('A' <= c <= 'Z') || ('0' <= c <= '9') || c == '_'
  }

  function UpperCase(c: char): (u: char)
    ensures 'a' <= c <= 'z' ==> u as int == c as int - 32
    ensures !('a' <= c <= 'z') ==> u == c
    ensures IsWordChar(u) == IsWordChar(c)
  {
    if 'a' <= c <= 'z' then (c as int - 32) as char else c
  }

  /** Position `i` of `s` starts a word (`\b\w`): a word character at the
      start or right after a non-word character. */
  predicate StartsWord(s: string, i: nat)
    requires i < |s|
  {
    IsWordChar(s[i]) && (i == 0 || !IsWordChar(s[i - 1]))
  }

  /** `replace(/-/g, ' ')` */
  function DashesToSpaces(s: string): (r: string)
    ensures |r| == |s|
    ensures forall i :: 0 <= i < |s| ==> IsWordChar(r[i]) == IsWordChar(s[i])
    ensures forall i :: 0 <= i < |s| ==> r[i] != '-'
  {
    seq(|s|, i requires 0 <= i < |s| => if s[i] == '-' then ' ' else s[i])
  }

  /** `replace(/\b\w/g, l => l.toUpperCase())` */
  function CapitaliseWords(s: string): (r: string)
    ensures |r| == |s|
    ensures forall i :: 0 <= i < |s| && StartsWord(s, i) ==> !('a' <= r[i] <= 'z') && IsWordChar(r[i])
    ensures forall i :: 0 <= i < |s| && !StartsWord(s, i) ==> r[i] == s[i]
  {
    seq(|s|, i requires 0 <= i < |s| => if StartsWord(s, i) then UpperCase(s[i]) else s[i])
  }

  /** The display name of a station id: dashes become spaces and the first
      letter of every word is upper-cased, every other character is kept. */
  function DisplayName(id: string): (name: string)
    ensures |name| == |id|
    ensures forall i :: 0 <= i < |name| ==> name[i] != '-'
    ensures forall i :: 0 <= i < |id| ==>
              name[i] == (if id[i] == '-' then ' ' else if StartsWord(id, i) then UpperCase(id[i]) else id[i])
  {
    var spaced := DashesToSpaces(id);
    var name := CapitaliseWords(spaced);
    assert forall i :: 0 <= i < |id| ==> StartsWord(spaced, i) == StartsWord(id, i);
    name
  }

  /** Formatting a display name again changes nothing. */
  lemma DisplayNameIdempotent(id: string)
    ensures DisplayName(DisplayName(id)) == DisplayName(id)
  {
    var n := DisplayName(id);
    assert forall i :: 0 <= i < |n| ==> IsWordChar(n[i]) == IsWordChar(id[i]);
    assert forall i :: 0 <= i < |n| ==> StartsWord(n, i) == StartsWord(id, i);
  }

  lemma DisplayNameExample()
    ensures DisplayName("ced-s") == "Ced S"
  {
    var id := "ced-s";
    assert StartsWord(id, 0) && !StartsWord(id, 1) && !StartsWord(id, 2) && StartsWord(id, 4);
  }

  // ------------------------------------------------------ equipment list

  datatype Equipment = Equipment(
    id: string,
    name: string,
    reading: ProcessReading,
    maintenance: Option<MaintenanceRecord>)

  /** `order` lists the keys of `data`, each once. */
  predicate ListsKeys<V>(order: seq<string>, data: map<string, V>) {
    && (forall i, j :: 0 <= i < j < |order| ==> order[i] != order[j])
    && (forall i :: 0 <= i < |order| ==> order[i] in data)
    && (forall k :: k in data ==> k in order)
  }

  /** `equipmentList`: one entry per station record, with its display name,
      its reading and its maintenance record if there is one. */
  function EquipmentList(
    order: seq<string>,
    processData: map<string, ProcessReading>,
    maintenanceData: map<string, MaintenanceRecord>): (list: seq<Equipment>)
    requires ListsKeys(order, processData)
    ensures |list| == |processData|
    ensures forall k :: k in processData <==> exists i :: 0 <= i < |list| && list[i].id == k
    ensures forall i, j :: 0 <= i < j < |list| ==> list[i].id != list[j].id
    ensures forall i :: 0 <= i < |list| ==>
              && list[i].id in processData
              && list[i].reading == processData[list[i].id]
              && list[i].name == DisplayName(list[i].id)
              && (list[i].maintenance.Some? <==> list[i].id in maintenanceData)
              && (list[i].maintenance.Some? ==> list[i].maintenance.value == maintenanceData[list[i].id])
  {
    DistinctListingHasMapSize(order, processData);
    var list := seq(|order|, i requires 0 <= i < |order| => Entry(order[i], processData, maintenanceData));
    assert forall i :: 0 <= i < |list| ==> list[i].id == order[i];
    ListingCoversKeys(order, processData);
    list
  }

  /** The list entry of one station key. */
  function Entry(
    k: string,
    processData: map<string, ProcessReading>,
    maintenanceData: map<string, MaintenanceRecord>): Equipment
    requires k in processData
  {
    Equipment(k, DisplayName(k), processData[k], if k in maintenanceData then Some(maintenanceData[k]) else None)
  }

  lemma ListingCoversKeys<V>(order: seq<string>, data: map<string, V>)
    requires ListsKeys(order, data)
    ensures forall k :: k in data ==> exists i :: 0 <= i < |order| && order[i] == k
  {
  }

  lemma DistinctListingHasMapSize<V>(order: seq<string>, data: map<string, V>)
    requires ListsKeys(order, data)
    ensures |order| == |data|
  {
    DistinctSeqSetSize(order);
    assert (set i | 0 <= i < |order| :: order[i]) == data.Keys;
  }

  lemma {:induction false} DistinctSeqSetSize(s: seq<string>)
    requires forall i, j :: 0 <= i < j < |s| ==> s[i] != s[j]
    ensures |set i | 0 <= i < |s| :: s[i]| == |s|
  {
    if |s| > 0 {
      var last := s[|s| - 1];
      var init := s[..|s| - 1];
      DistinctSeqSetSize(init);
      var all := set i | 0 <= i < |s| :: s[i];
      var front := set i | 0 <= i < |init| :: init[i];
      assert all == front + {last};
      assert last !in front;
    }
  }

  // -------------------------------------------------------- status tallies

  /** `equipmentList.filter(eq => eq.status === status).length` */
  function CountStatus(list: seq<Equipment>, status: string): (n: nat)
    ensures n <= |list|
    ensures n == 0 <==> forall i :: 0 <= i < |list| ==> list[i].reading.status != status
    ensures n == |list| <==> forall i :: 0 <= i < |list| ==> list[i].reading.status == status
  {
    if |list| == 0 then 0
    else
      var rest := CountStatus(list[1..], status);
      assert forall i :: 1 <= i < |list| ==> list[i] == list[1..][i - 1];
      (if list[0].reading.status == status then 1 else 0) + rest
  }

  predicate KnownStatuses(list: seq<Equipment>) {
    forall i :: 0 <= i < |list| ==> list[i].reading.status in {"normal", "warning", "critical"}
  }

  /** With only the three known statuses, the normal, warning and critical
      tiles add up to the whole list. */
  lemma {:induction false} StatusTalliesCoverList(list: seq<Equipment>)
    requires KnownStatuses(list)
    ensures CountStatus(list, "normal") + CountStatus(list, "warning") + CountStatus(list, "critical") == |list|
  {
    if |list| > 0 {
      assert KnownStatuses(list[1..]) by {
        assert forall i :: 1 <= i < |list| ==> list[i] == list[1..][i - 1];
      }
      StatusTalliesCoverList(list[1..]);
    }
  }

  // ------------------------------------------------------- trend charts

  /** The inputs of one trend chart. An absent history is drawn like an
      empty one (both fall to the chart's synthetic sample), so both are the
      empty sequence here. */
  datatype TrendInput = TrendInput(title: string, data: seq<real>, spec: Option<TrendChart.Specification>)

  function History(h: Option<seq<real>>): seq<real> {
    if h.Some? then h.value else []
  }

  /** `selectedEquipment ? processData[selectedEquipment]?.xHistory : []` */
  function Selected(selected: Option<string>, processData: map<string, ProcessReading>): (r: Option<ProcessReading>)
    ensures r.Some? <==> selected.Some? && selected.value != "" && selected.value in processData
    ensures r.Some? ==> r.value == processData[selected.value]
  {
    if selected.Some? && selected.value != "" && selected.value in processData
    then Some(processData[selected.value]) else None
  }

  /** The four charts, in display order. */
  function TrendInputs(selected: Option<string>, processData: map<string, ProcessReading>): (charts: seq<TrendInput>)
    ensures |charts| == 4
    ensures charts[0].title == "Temperature" && charts[0].spec == Some(TrendChart.Specification(150.0, 250.0, Some(200.0)))
    ensures charts[1].title == "Vibration" && charts[1].spec == Some(TrendChart.Specification(0.0, 3.0, Some(1.5)))
    ensures charts[2].title == "Cycle Count" && charts[2].spec.None?
    ensures charts[3].title == "Efficiency" && charts[3].spec == Some(TrendChart.Specification(85.0, 100.0, Some(95.0)))
    ensures Selected(selected, processData).None? ==>
              forall i :: 0 <= i < 4 ==> TrendChart.ChartData(charts[i].data).Synthetic?
    ensures Selected(selected, processData).Some? ==>
              var r := Selected(selected, processData).value;
              && charts[0].data == History(r.temperatureHistory)
              && charts[1].data == History(r.vibrationHistory)
              && charts[2].data == History(r.cycleHistory)
              && charts[3].data == History(r.efficiencyHistory)
  {
    var r := Selected(selected, processData);
    [
      TrendInput("Temperature", if r.Some? then History(r.value.temperatureHistory) else [],
                 Some(TrendChart.Specification(150.0, 250.0, Some(200.0)))),
      TrendInput("Vibration", if r.Some? then History(r.value.vibrationHistory) else [],
                 Some(TrendChart.Specification(0.0, 3.0, Some(1.5)))),
      TrendInput("Cycle Count", if r.Some? then History(r.value.cycleHistory) else [], None),
      TrendInput("Efficiency", if r.Some? then History(r.value.efficiencyHistory) else [],
                 Some(TrendChart.Specification(85.0, 100.0, Some(95.0))))
    ]
  }

  /** The heading above the trend charts. */
  function TrendsHeading(selected: Option<string>): (h: string)
    ensures selected.Some? && selected.value != "" ==> h == DisplayName(selected.value) + " Trends"
    ensures selected.None? || selected.value == "" ==> h == "Overall System Trends"
  {
    if selected.Some? && selected.value != "" then DisplayName(selected.value) + " Trends"
    else "Overall System Trends"
  }
}
