/** The voltage page's JSON API: the hour-data check with its fallback to
  * the nominal voltage, and the typing of the live voltage metrics. */
module ApiVoltage {
  import opened Wrappers
  import opened Dynamic
  import opened Dicts
  import opened Text
  import opened ApiCommon

  predicate HasInputVoltage(row: Row)
  {
    "input_voltage" in row.cols
  }

  predicate HasNominalVoltage(row: Row)
  {
    "input_voltage_nominal" in row.cols
  }

  /** Some row of the last hour has a measured input voltage. */
  predicate MeasuredLastHour(rows: seq<Row>, now: int)
  {
    exists i :: 0 <= i < |rows| && InLastHour(rows[i], now) && HasInputVoltage(rows[i])
  }

  lemma MeasuredLastHourSelects(rows: seq<Row>, now: int)
    ensures MeasuredLastHour(rows, now) <==> |LastHour(rows, now, HasInputVoltage)| > 0
  {
    var ts := LastHour(rows, now, HasInputVoltage);
    if MeasuredLastHour(rows, now) {
      var i :| 0 <= i < |rows| && InLastHour(rows[i], now) && HasInputVoltage(rows[i]);
      LastHourMembers(rows, now, HasInputVoltage, rows[i].ts);
    }
    if |ts| > 0 {
      LastHourMembers(rows, now, HasInputVoltage, ts[0]);
    }
  }

  /** `/api/voltage/has_hour_data`: the rows with a measured
    * `input_voltage`, and only when the last hour has none of them, the
    * rows with an `input_voltage_nominal`. */
  function HasHourData(table: Result<seq<Row>>, now: int): (r: HourReply)
    ensures table.Err? ==> !r.hasData && r.error == Some(table.error)
    ensures table.Ok? && MeasuredLastHour(table.value, now) ==> r == HourData(table, now, HasInputVoltage)
    ensures table.Ok? && !MeasuredLastHour(table.value, now) ==> r == HourData(table, now, HasNominalVoltage)
  {
    match table
    case Err(e) => HourData(table, now, HasInputVoltage)
    case Ok(rows) =>
      MeasuredLastHourSelects(rows, now);
      if |LastHour(rows, now, HasInputVoltage)| > 0 then HourData(table, now, HasInputVoltage)
      else HourData(table, now, HasNominalVoltage)
  }

  /** The nominal voltage is no rescue: once the last hour has a single
    * measured voltage, too few measured rows mean no data, however many
    * nominal rows there are. */
  lemma {:induction false} FewMeasuredRows(rows: seq<Row>, now: int)
    requires 0 < |LastHour(rows, now, HasInputVoltage)| < MIN_ROWS
    ensures HasHourData(Ok(rows), now) == HourReply(false, None)
  {
    MeasuredLastHourSelects(rows, now);
  }

  /** A live metric: text for the status and sensitivity, a number otherwise. */
  datatype Metric = Label(s: string) | Reading(x: real)

  const VOLTAGE_METRICS: seq<string> := [
    "input_voltage", "output_voltage",
    "input_voltage_nominal", "output_voltage_nominal",
    "input_transfer_low", "input_transfer_high",
    "input_current", "output_current",
    "input_frequency", "output_frequency",
    "input_sensitivity", "ups_status", "ups_load",
    "input_frequency_nominal", "output_frequency_nominal"
  ]

  const TEXT_METRICS: set<string> := {"ups_status", "input_sensitivity"}

  /** `str(value)` for the text metrics, `float(value)` for the others;
    * `None` when the conversion raises. `show` is `str` on a float. */
  function Convert(name: string, v: Value, show: real -> string): (m: Option<Metric>)
    ensures name in TEXT_METRICS ==> m.Some? && m.value.Label?
    ensures name !in TEXT_METRICS && m.Some? ==> m.value.Reading?
    ensures name !in TEXT_METRICS && v.Num? ==> m == Some(Reading(v.x))
    ensures name !in TEXT_METRICS && v.Str? ==> (m.Some? <==> ParseDecimal(v.s).Some?)
  {
    if name in TEXT_METRICS then
      match v
      case Str(s) => Some(Label(s))
      case Num(x) => Some(Label(show(x)))
    else
      match v
      case Num(x) => Some(Reading(x))
      case Str(s) =>
        match ParseDecimal(s)
        case Some(x) => Some(Reading(x))
        case None => None
  }

  /** The loop over `names`: each present, convertible metric is added
    * under its name, in list order. `data` holds the non-null attributes
    * of the live reading. */
  function Collect(names: seq<string>, data: map<string, Value>, show: real -> string): (r: Dict<Metric>)
    ensures forall k :: k in Keys(r) ==> k in names
    ensures forall k :: k in names && k in data && Convert(k, data[k], show).Some? ==> k in Keys(r)
    ensures forall k :: k in Keys(r) ==> k in data && Get(r, k) == Convert(k, data[k], show)
  {
    if |names| == 0 then []
    else
      var rest := Collect(names[1..], data, show);
      var n := names[0];
      assert forall k :: k in names ==> k == n || k in names[1..];
      if n in data && Convert(n, data[n], show).Some? then
        var r := [(n, Convert(n, data[n], show).value)] + rest;
        assert r[1..] == rest;
        assert Keys(r) == [n] + Keys(rest);
        r
      else rest
  }

  datatype MetricsReply = Metrics(data: Dict<Metric>) | Failed(error: string)

  /** `/api/voltage/metrics`: reading the live data may raise; otherwise the
    * fifteen voltage metrics that are present and convertible, the status
    * and sensitivity as text and the rest as numbers. */
  function VoltageMetrics(upsData: Result<map<string, Value>>, show: real -> string): (r: MetricsReply)
    ensures upsData.Err? ==> r == Failed(upsData.error)
    ensures upsData.Ok? ==> r.Metrics?
    ensures r.Metrics? ==> forall k :: k in Keys(r.data) ==> k in VOLTAGE_METRICS && k in upsData.value
    ensures r.Metrics? ==> forall k :: k in Keys(r.data) ==> (Get(r.data, k).value.Label? <==> k in TEXT_METRICS)
    ensures r.Metrics? ==> forall k :: k in VOLTAGE_METRICS && k in upsData.value && upsData.value[k].Num? ==> k in Keys(r.data)
  {
    match upsData
    case Err(e) => Failed(e)
    case Ok(data) => Metrics(Collect(VOLTAGE_METRICS, data, show))
  }
}
