/** The shared data container of the dashboard: the record shapes it serves,
    the clamped random-walk update applied on every refresh tick, the shape
    of the initial measurement series, and the provider guard.

    The randomness of a tick is taken as an input: every station and every
    quality parameter receives an already drawn, bounded offset.
 */
module DataContext {
  import opened Common

  /** One sample of a quality parameter's measurement series. */
  datatype Measurement = Measurement(value: real, timestamp: int)

  /** The live record of one process station. The status is kept as text so
      that the views' fall-through branches for unexpected values are
      expressible; the provider itself only produces the three known ones. */
  datatype ProcessReading = ProcessReading(
    status: string,
    temperature: Option<real>,
    efficiency: Option<real>,
    cycleCount: Option<real>,
    vibration: Option<real>,
    temperatureHistory: Option<seq<real>>,
    efficiencyHistory: Option<seq<real>>,
    cycleHistory: Option<seq<real>>,
    vibrationHistory: Option<seq<real>>)

  datatype MaintenanceRecord = MaintenanceRecord(nextService: int, lastMaintenance: string, totalHours: int)

  datatype QualityRecord = QualityRecord(
    cpk: real,
    cp: real,
    currentValue: real,
    trend: string,
    measurements: Option<seq<Measurement>>)

  /** The value the provider hands to its consumers. */
  datatype DataState = DataState(
    processData: map<string, ProcessReading>,
    maintenanceData: map<string, MaintenanceRecord>,
    qualityData: map<string, QualityRecord>)

  /** The offsets one tick draws for one station:
      `(Math.random() - 0.5) * 5` for the temperature and
      `(Math.random() - 0.5) * 2` for the efficiency. */
  datatype StationNoise = StationNoise(temperature: real, efficiency: real)

  predicate ValidStationNoise(n: StationNoise) {
    && -2.5 <= n.temperature < 2.5
    && -1.0 <= n.efficiency < 1.0
  }

  /** `(Math.random() - 0.5) * 2` for a quality parameter's current value. */
  predicate ValidQualityNoise(d: real) {
    -1.0 <= d < 1.0
  }

  const MinTemperature: real := 100.0
  const MaxTemperature: real := 300.0
  const MinEfficiency: real := 60.0
  const MaxEfficiency: real := 100.0
  const MinQualityValue: real := 15.0
  const MaxQualityValue: real := 35.0

  /** The random walk of one station: a truthy temperature or efficiency
      moves by its offset and is clamped into its band; an absent or zero
      reading is left alone. Nothing else in the record changes. */
  function TickStation(r: ProcessReading, n: StationNoise): (t: ProcessReading)
    requires ValidStationNoise(n)
    ensures Truthy(r.temperature) ==>
              && t.temperature == Some(Clamp(r.temperature.value + n.temperature, MinTemperature, MaxTemperature))
              && MinTemperature <= t.temperature.value <= MaxTemperature
    ensures Truthy(r.temperature) && MinTemperature <= r.temperature.value <= MaxTemperature ==>
              Abs(t.temperature.value - r.temperature.value) <= 2.5
    ensures !Truthy(r.temperature) ==> t.temperature == r.temperature
    ensures Truthy(r.efficiency) ==>
              && t.efficiency == Some(Clamp(r.efficiency.value + n.efficiency, MinEfficiency, MaxEfficiency))
              && MinEfficiency <= t.efficiency.value <= MaxEfficiency
    ensures Truthy(r.efficiency) && MinEfficiency <= r.efficiency.value <= MaxEfficiency ==>
              Abs(t.efficiency.value - r.efficiency.value) <= 1.0
    ensures !Truthy(r.efficiency) ==> t.efficiency == r.efficiency
    ensures t.(temperature := r.temperature, efficiency := r.efficiency) == r
  {
    var afterTemperature :=
      if Truthy(r.temperature)
      then r.(temperature := Some(Clamp(r.temperature.value + n.temperature, MinTemperature, MaxTemperature)))
      else r;
    if Truthy(afterTemperature.efficiency)
    then afterTemperature.(efficiency := Some(Clamp(afterTemperature.efficiency.value + n.efficiency, MinEfficiency, MaxEfficiency)))
    else afterTemperature
  }

  /** The process half of a tick: every station takes one random-walk step. */
  function TickProcessData(data: map<string, ProcessReading>, noise: map<string, StationNoise>): (r: map<string, ProcessReading>)
    requires data.Keys <= noise.Keys
    requires forall k :: k in noise ==> ValidStationNoise(noise[k])
    ensures r.Keys == data.Keys
    ensures forall k :: k in r ==> r[k] == TickStation(data[k], noise[k])
  {
    map k | k in data :: TickStation(data[k], noise[k])
  }

  /** The quality half of a tick: every current value moves by its offset and
      is clamped into [15, 35]; Cpk, Cp, trend and measurements are kept. */
  function TickQualityData(data: map<string, QualityRecord>, noise: map<string, real>): (r: map<string, QualityRecord>)
    requires data.Keys <= noise.Keys
    requires forall k :: k in noise ==> ValidQualityNoise(noise[k])
    ensures r.Keys == data.Keys
    ensures forall k :: k in r ==> MinQualityValue <= r[k].currentValue <= MaxQualityValue
    ensures forall k :: k in r ==> r[k].(currentValue := data[k].currentValue) == data[k]
    ensures forall k :: k in r && MinQualityValue <= data[k].currentValue + noise[k] <= MaxQualityValue ==>
              r[k].currentValue == data[k].currentValue + noise[k]
    ensures forall k :: k in r && data[k].currentValue + noise[k] < MinQualityValue ==> r[k].currentValue == MinQualityValue
    ensures forall k :: k in r && data[k].currentValue + noise[k] > MaxQualityValue ==> r[k].currentValue == MaxQualityValue
  {
    map k | k in data :: data[k].(currentValue := Clamp(data[k].currentValue + noise[k], MinQualityValue, MaxQualityValue))
  }

  /** One refresh tick of the provider; the maintenance records are not touched. */
  function Tick(s: DataState, stationNoise: map<string, StationNoise>, qualityNoise: map<string, real>): (t: DataState)
    requires s.processData.Keys <= stationNoise.Keys
    requires forall k :: k in stationNoise ==> ValidStationNoise(stationNoise[k])
    requires s.qualityData.Keys <= qualityNoise.Keys
    requires forall k :: k in qualityNoise ==> ValidQualityNoise(qualityNoise[k])
    ensures t.processData.Keys == s.processData.Keys
    ensures t.qualityData.Keys == s.qualityData.Keys
    ensures t.maintenanceData == s.maintenanceData
    ensures forall k :: k in t.processData ==>
              var before, after := s.processData[k], t.processData[k];
              && after.status == before.status
              && after.temperatureHistory == before.temperatureHistory
              && after.efficiencyHistory == before.efficiencyHistory
              && after.cycleHistory == before.cycleHistory
              && after.vibrationHistory == before.vibrationHistory
    ensures forall k :: k in t.processData ==> t.processData[k] == TickStation(s.processData[k], stationNoise[k])
    ensures forall k :: k in t.qualityData ==>
              var before, after := s.qualityData[k], t.qualityData[k];
              && after.(currentValue := before.currentValue) == before
              && after.currentValue == Clamp(before.currentValue + qualityNoise[k], MinQualityValue, MaxQualityValue)
  {
    DataState(
      TickProcessData(s.processData, stationNoise),
      s.maintenanceData,
      TickQualityData(s.qualityData, qualityNoise))
  }

  /** Milliseconds between two consecutive initial measurements. */
  const MeasurementSpacing: int := 60000
  const InitialMeasurementCount: nat := 25

  /** The initial measurement series of a quality parameter: 25 drawn values,
      element `i` stamped with its own clock reading `clock[i]` less
      `24 - i` minutes, as the code reads `Date.now()` once per element. */
  function InitialMeasurements(values: seq<real>, clock: seq<int>): (ms: seq<Measurement>)
    requires |values| == InitialMeasurementCount && |clock| == InitialMeasurementCount
    ensures |ms| == InitialMeasurementCount
    ensures forall i :: 0 <= i < |ms| ==> ms[i].value == values[i]
    ensures ms[|ms| - 1].timestamp == clock[|clock| - 1]
    ensures forall i :: 0 < i < |ms| ==>
              ms[i].timestamp - ms[i - 1].timestamp == MeasurementSpacing + (clock[i] - clock[i - 1])
  {
    seq(InitialMeasurementCount, i requires 0 <= i < InitialMeasurementCount =>
      Measurement(values[i], clock[i] - (24 - i) * MeasurementSpacing))
  }

  /** A clock that never runs backwards keeps the series in time order, at
      least one minute apart; a clock that does not move while the series is
      built spaces it exactly one minute apart. */
  lemma InitialMeasurementsSpacing(values: seq<real>, clock: seq<int>, i: nat)
    requires |values| == InitialMeasurementCount && |clock| == InitialMeasurementCount
    requires 0 < i < InitialMeasurementCount
    ensures clock[i - 1] <= clock[i] ==>
              InitialMeasurements(values, clock)[i].timestamp >= InitialMeasurements(values, clock)[i - 1].timestamp + MeasurementSpacing
    ensures clock[i - 1] == clock[i] ==>
              InitialMeasurements(values, clock)[i].timestamp == InitialMeasurements(values, clock)[i - 1].timestamp + MeasurementSpacing
  {
  }

  /** Reading the provider outside its scope fails instead of yielding a default. */
  function UseData(provided: Option<DataState>): (r: Result<DataState, string>)
    ensures r.Err? <==> provided.None?
    ensures r.Ok? ==> r.value == provided.value
  {
    match provided
    case None => Err("useData must be used within a DataProvider")
    case Some(s) => Ok(s)
  }
}
