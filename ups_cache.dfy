/** The sample buffer between the UPS reader and the `ups_dynamic_data`
  * table: minute averages, the hourly and daily back-fill and the filter in
  * front of the real-time broadcast. */
module UpsCache {
  import opened Wrappers
  import opened Text
  import opened Dicts
  import opened Clock
  import opened Dynamic

  /** `get_next_minute`: the start of the minute after `t`. */
  function GetNextMinute(t: int): (r: int)
    ensures r % MINUTE == 0
    ensures t < r <= t + MINUTE
  {
    Truncate(t, MINUTE) + MINUTE
  }

  /** `get_next_hour`: the start of the hour after `t`. */
  function GetNextHour(t: int): (r: int)
    ensures r % HOUR == 0
    ensures t < r <= t + HOUR
  {
    Truncate(t, HOUR) + HOUR
  }

  /** A sample with every '.' in its keys replaced by '_', later keys
    * overwriting earlier ones that collide. */
  function Formatted(d: Dict<Value>): Dict<Value>
  {
    if |d| == 0 then []
    else Put(Formatted(d[..|d| - 1]), Underscored(d[|d| - 1].0), d[|d| - 1].1)
  }

  /** The value a formatted key ends with: that of the last key mapping to it. */
  function LastWith(d: Dict<Value>, k: string): Option<Value>
  {
    if |d| == 0 then None
    else if Underscored(d[|d| - 1].0) == k then Some(d[|d| - 1].1)
    else LastWith(d[..|d| - 1], k)
  }

  lemma {:induction false} FormattedLastWins(d: Dict<Value>, k: string)
    ensures Get(Formatted(d), k) == LastWith(d, k)
    ensures Get(Formatted(d), k).Some? ==> '.' !in k
  {
    if |d| > 0 {
      FormattedLastWins(d[..|d| - 1], k);
    }
  }

  /** The key loop of `add`. */
  method FormatKeys(d: Dict<Value>) returns (out: Dict<Value>)
    ensures out == Formatted(d)
  {
    out := [];
    var i := 0;
    while i < |d|
      invariant 0 <= i <= |d|
      invariant out == Formatted(d[..i])
    {
      assert d[..i + 1][..i] == d[..i];
      out := Put(out, Underscored(d[i].0), d[i].1);
      i := i + 1;
    }
    assert d[..|d|] == d;
  }

  type Sample = (int, Dict<Value>)

  /** The column names of the buffer as a data frame, without the timestamp. */
  function Columns(data: seq<Sample>): set<string>
  {
    if |data| == 0 then {}
    else Columns(data[..|data| - 1]) + (KeySet(data[|data| - 1].1) - {"timestamp"})
  }

  /** The numeric readings of column `c`, in buffer order. */
  function ColumnNumbers(data: seq<Sample>, c: string): seq<real>
  {
    if |data| == 0 then []
    else
      var v := Get(data[|data| - 1].1, c);
      ColumnNumbers(data[..|data| - 1], c) + (if v.Some? && v.value.Num? then [v.value.x] else [])
  }

  /** A column the data frame types as numeric: some number and no text. */
  predicate IsNumericColumn(data: seq<Sample>, c: string)
  {
    |ColumnNumbers(data, c)| > 0 &&
    forall i :: 0 <= i < |data| ==> Get(data[i].1, c).None? || Get(data[i].1, c).value.Num?
  }

  /** `calculate_averages`: `None` on an empty buffer; otherwise each numeric
    * column's mean rounded to hundredths and each other column's value in the
    * last sample. */
  function CalculateAverages(data: seq<Sample>): (r: Option<map<string, Value>>)
    ensures r.None? <==> |data| == 0
    ensures r.Some? ==> forall c :: c in r.value ==> c in Columns(data)
  {
    if |data| == 0 then None
    else
      var last := data[|data| - 1].1;
      Some(map c | c in Columns(data) && (IsNumericColumn(data, c) || HasKey(last, c)) ::
        if IsNumericColumn(data, c) then Num(Round2(Mean(ColumnNumbers(data, c)))) else Get(last, c).value)
  }

  /** A single sample averages to itself, numbers rounded to hundredths. */
  lemma SingleSampleAverages(t: int, d: Dict<Value>, k: string)
    requires k != "timestamp" && HasKey(d, k)
    ensures var avg := CalculateAverages([(t, d)]).value;
      k in avg && avg[k] == match Get(d, k).value
        case Num(x) => Num(Round2(x))
        case Str(s) => Str(s)
  {
    var data := [(t, d)];
    assert data[..0] == [];
    assert k in Columns(data);
    var v := Get(d, k).value;
    if v.Num? {
      assert ColumnNumbers(data, k) == [v.x];
      assert Sum([v.x]) == v.x + Sum([]) by { assert [v.x][1..] == []; }
    } else {
      assert !IsNumericColumn(data, k);
    }
  }

  /** A numeric average lies within the range of the readings it averages,
    * up to the rounding to hundredths. */
  lemma AverageWithinRange(data: seq<Sample>, c: string, lo: real, hi: real)
    requires |data| > 0 && c in Columns(data) && IsNumericColumn(data, c)
    requires forall i :: 0 <= i < |ColumnNumbers(data, c)| ==> lo <= ColumnNumbers(data, c)[i] <= hi
    ensures var avg := CalculateAverages(data).value;
      c in avg && avg[c].Num? && lo - 0.005 < avg[c].x <= hi + 0.005
  {
    MeanBounds(ColumnNumbers(data, c), lo, hi);
  }

  /** What the broadcast carries: the time it was sent and the sample. */
  datatype Payload = Payload(stamp: int, fields: Dict<Value>)

  const IMPORTANT_METRICS: seq<string> := ["ups_load", "battery_charge", "ups_realpower", "input_voltage"]

  /** `float(v or 0)`: empty text and zero count as 0, unparsable text fails. */
  function MetricNumber(v: Value): Option<real>
  {
    match v
    case Num(x) => Some(x)
    case Str(s) => if s == "" then Some(0.0) else ParseDecimal(s)
  }

  /** Metric `m` is in both samples and moved by at least 1, or cannot be compared. */
  predicate MetricChanged(cur: Dict<Value>, last: Dict<Value>, m: string)
  {
    HasKey(cur, m) && HasKey(last, m) &&
    var a := MetricNumber(Get(cur, m).value);
    var b := MetricNumber(Get(last, m).value);
    a.None? || b.None? || a.value - b.value >= 1.0 || b.value - a.value >= 1.0
  }

  /** Some important metric changed significantly. */
  predicate AnyMetricChanged(cur: Dict<Value>, last: Dict<Value>)
  {
    exists i :: 0 <= i < |IMPORTANT_METRICS| && MetricChanged(cur, last, IMPORTANT_METRICS[i])
  }

  /** The metric loop's answer, metric by metric in list order. */
  predicate ChangedAmong(cur: Dict<Value>, last: Dict<Value>, metrics: seq<string>)
    decreases |metrics|
  {
    |metrics| > 0 && (MetricChanged(cur, last, metrics[0]) || ChangedAmong(cur, last, metrics[1..]))
  }

  /** The loop's answer is "some metric of the list changed". */
  lemma {:induction false} ChangedAmongMeaning(cur: Dict<Value>, last: Dict<Value>, metrics: seq<string>)
    ensures ChangedAmong(cur, last, metrics) <==>
      exists i :: 0 <= i < |metrics| && MetricChanged(cur, last, metrics[i])
    decreases |metrics|
  {
    if |metrics| > 0 {
      ChangedAmongMeaning(cur, last, metrics[1..]);
      if !MetricChanged(cur, last, metrics[0]) {
        forall i | 0 < i < |metrics|
          ensures MetricChanged(cur, last, metrics[i]) == MetricChanged(cur, last, metrics[1..][i - 1])
        {
        }
      } else {
        assert 0 < |metrics| && MetricChanged(cur, last, metrics[0]);
      }
    }
  }

  /** The metric loop of `broadcast_cache_update`, stopping at the first change. */
  method SignificantChange(cur: Dict<Value>, last: Dict<Value>, metrics: seq<string>) returns (changed: bool)
    ensures changed <==> ChangedAmong(cur, last, metrics)
  {
    var i := 0;
    while i < |metrics|
      invariant 0 <= i <= |metrics|
      invariant ChangedAmong(cur, last, metrics) == ChangedAmong(cur, last, metrics[i..])
    {
      assert metrics[i..][1..] == metrics[i + 1..];
      if MetricChanged(cur, last, metrics[i]) {
        return true;
      }
      i := i + 1;
    }
    return false;
  }

  /** A payload is sent when it is non-empty and either nothing was sent
    * before, the status differs, or an important metric changed. */
  predicate ShouldBroadcast(data: Dict<Value>, last: Option<Payload>)
  {
    |data| > 0 &&
    (last.None? ||
     Get(data, "ups_status") != Get(last.value.fields, "ups_status") ||
     AnyMetricChanged(data, last.value.fields))
  }

  /** Same status and important metrics equal and readable: not sent again. */
  lemma SteadyReadingsSuppressed(data: Dict<Value>, last: Payload)
    requires Get(data, "ups_status") == Get(last.fields, "ups_status")
    requires forall i :: 0 <= i < |IMPORTANT_METRICS| ==>
      Get(data, IMPORTANT_METRICS[i]) == Get(last.fields, IMPORTANT_METRICS[i])
    requires forall i :: 0 <= i < |IMPORTANT_METRICS| && HasKey(data, IMPORTANT_METRICS[i]) ==>
      MetricNumber(Get(data, IMPORTANT_METRICS[i]).value).Some?
    ensures !ShouldBroadcast(data, Some(last))
  {
    forall i | 0 <= i < |IMPORTANT_METRICS|
      ensures !MetricChanged(data, last.fields, IMPORTANT_METRICS[i])
    {
      var m := IMPORTANT_METRICS[i];
      if HasKey(data, m) {
        var a := MetricNumber(Get(data, m).value);
        assert a == MetricNumber(Get(last.fields, m).value);
      }
    }
  }

  /** An unreadable important metric present in both payloads always
    * triggers a broadcast. */
  lemma UnreadableMetricBroadcasts(data: Dict<Value>, last: Payload, i: nat)
    requires i < |IMPORTANT_METRICS|
    requires HasKey(data, IMPORTANT_METRICS[i]) && HasKey(last.fields, IMPORTANT_METRICS[i])
    requires MetricNumber(Get(data, IMPORTANT_METRICS[i]).value).None?
    ensures ShouldBroadcast(data, Some(last))
  {
    assert MetricChanged(data, last.fields, IMPORTANT_METRICS[i]);
    assert |Keys(data)| > 0;
  }

  /** The mean of the hourly averages stored for the day before `now`. */
  function PreviousDayMean(rows: seq<Row>, now: int): (r: Option<real>)
    ensures r.Some? <==> |Window(rows, "ups_realpower_hrs", Truncate(now, DAY) - DAY, Truncate(now, DAY))| > 0
  {
    var day := Truncate(now, DAY);
    var hrs := Window(rows, "ups_realpower_hrs", day - DAY, day);
    if |hrs| == 0 then None else Some(Mean(hrs))
  }

  /** The daily record `aggregate_daily_data` writes at `now`: the mean of the
    * previous day's hourly values, at that day's midnight, unless the mean is
    * absent or zero. */
  function DailyAggregate(rows: seq<Row>, now: int): (r: Option<Row>)
    ensures r.Some? ==> r.value.ts == Truncate(now, DAY) - DAY
    ensures r.Some? ==> "ups_realpower_days" in r.value.cols
    ensures r.Some? <==> PreviousDayMean(rows, now).Some? && PreviousDayMean(rows, now).value != 0.0
    ensures r.Some? ==> r.value.cols["ups_realpower_days"] == Num(Round2(PreviousDayMean(rows, now).value))
  {
    var m := PreviousDayMean(rows, now);
    if m.None? || m.value == 0.0 then None
    else Some(Row(Truncate(now, DAY) - DAY, map["ups_realpower_days" := Num(Round2(m.value))]))
  }

  /** The record written for one flush: the averages the table has columns
    * for, stamped with the scheduled save time. */
  function Record(stamp: int, avgs: map<string, Value>, columns: set<string>): (r: Row)
    ensures r.ts == stamp
    ensures forall k :: k in r.cols <==> k in avgs && k in columns
    ensures forall k :: k in r.cols ==> r.cols[k] == avgs[k]
  {
    Row(stamp, map k | k in avgs && k in columns :: avgs[k])
  }

  /** The whole state of the cache, as a value. */
  datatype CacheState = CacheState(
    size: int,
    cacheSeconds: int,
    data: seq<Sample>,
    nextSaveTime: Option<int>,
    nextHour: Option<int>,
    hourlyData: seq<(int, Value)>,
    lastDailyAggregation: Option<int>,
    lastBroadcast: Option<Payload>,
    emitted: seq<Payload>)

  /** Scheduled times are aligned, and a non-empty buffer always has a save
    * scheduled. */
  predicate ValidState(s: CacheState)
  {
    (s.nextSaveTime.Some? ==> s.nextSaveTime.value % MINUTE == 0) &&
    (s.nextHour.Some? ==> s.nextHour.value % HOUR == 0) &&
    (|s.data| > 0 ==> s.nextSaveTime.Some?)
  }

  /** `is_save_time` */
  predicate IsSaveTime(s: CacheState, now: int)
  {
    s.nextSaveTime.Some? && (now >= s.nextSaveTime.value || |s.data| >= s.size)
  }

  /** `broadcast_cache_update` */
  function Broadcast(s: CacheState, d: Dict<Value>, now: int): CacheState
  {
    if ShouldBroadcast(d, s.lastBroadcast) then
      s.(lastBroadcast := Some(Payload(now, d)), emitted := s.emitted + [Payload(now, d)])
    else s
  }

  /** `add` */
  function AddSample(s: CacheState, timestamp: int, d: Dict<Value>, now: int): CacheState
  {
    var s1 := if s.nextSaveTime.None? then s.(nextSaveTime := Some(GetNextMinute(timestamp))) else s;
    Broadcast(s1.(data := s1.data + [(timestamp, Formatted(d))]), Formatted(d), now)
  }

  /** `add` schedules a save only when none is scheduled, never moves one,
    * grows the buffer by exactly the formatted sample and keeps the state valid. */
  lemma AddSchedulesOnce(s: CacheState, timestamp: int, d: Dict<Value>, now: int)
    requires ValidState(s)
    ensures var s' := AddSample(s, timestamp, d, now);
      ValidState(s')
      && s'.nextSaveTime == (if s.nextSaveTime.Some? then s.nextSaveTime else Some(GetNextMinute(timestamp)))
      && s'.data == s.data + [(timestamp, Formatted(d))]
      && s'.size == s.size && s'.nextHour == s.nextHour && s'.hourlyData == s.hourlyData
  {
  }

  /** An empty sample is never broadcast; the first non-empty one always is;
    * a skipped broadcast leaves the last payload as it was. */
  lemma BroadcastRules(s: CacheState, d: Dict<Value>, now: int)
    ensures |d| == 0 ==> Broadcast(s, d, now) == s
    ensures |d| > 0 && s.lastBroadcast.None? ==> Broadcast(s, d, now).lastBroadcast == Some(Payload(now, d))
    ensures Broadcast(s, d, now).lastBroadcast != Some(Payload(now, d)) ==>
      Broadcast(s, d, now).lastBroadcast == s.lastBroadcast
  {
  }

  /** `should_aggregate_daily`: the first save in the minute after midnight,
    * once per date. */
  predicate DailyDue(s: CacheState, now: int)
  {
    HourOfDay(now) == 0 && MinuteOfHour(now) == 0 && s.lastDailyAggregation != Some(Date(now))
  }

  /** `aggregate_daily_data` */
  function AggregateDaily(rows: seq<Row>, now: int, commitOk: bool): seq<Row>
  {
    match DailyAggregate(rows, now)
    case None => rows
    case Some(rec) => if commitOk then rows + [rec] else rows
  }

  /** The hourly part of a flush: the minute's power joins the hour's list;
    * once the hour is over the stored powers of that hour are averaged into
    * the record and the list restarts. */
  function HourlyStep(s: CacheState, rows: seq<Row>, now: int, avgs: map<string, Value>, fields: map<string, Value>)
    : (CacheState, map<string, Value>)
    requires s.nextHour.Some? && s.nextSaveTime.Some?
  {
    if "ups_realpower" !in avgs then (s, fields)
    else
      var s1 := s.(hourlyData := s.hourlyData + [(s.nextSaveTime.value, avgs["ups_realpower"])]);
      if now >= s.nextHour.value then
        var exactHour := s.nextHour.value - HOUR;
        var powers := Window(rows, "ups_realpower", exactHour, exactHour + HOUR);
        var fields1 := if |powers| > 0 then fields["ups_realpower_hrs" := Num(Round2(Mean(powers)))] else fields;
        (s1.(hourlyData := [], nextHour := Some(GetNextHour(now))), fields1)
      else (s1, fields)
  }

  /** The hourly step keeps every column but `ups_realpower_hrs` as it was. */
  lemma HourlyStepKeepsFields(s: CacheState, rows: seq<Row>, now: int, avgs: map<string, Value>, fields: map<string, Value>)
    requires s.nextHour.Some? && s.nextSaveTime.Some?
    ensures var f := HourlyStep(s, rows, now, avgs, fields).1;
      (forall k :: k != "ups_realpower_hrs" ==> (k in f <==> k in fields))
      && (forall k :: k in f && k != "ups_realpower_hrs" ==> f[k] == fields[k])
  {
  }

  /** Past the hour, the hourly step stores the mean of the hour's stored
    * powers (when there are any), empties the list and moves to the next hour. */
  lemma HourlyStepAfterHour(s: CacheState, rows: seq<Row>, now: int, avgs: map<string, Value>, fields: map<string, Value>)
    requires s.nextHour.Some? && s.nextSaveTime.Some?
    requires "ups_realpower" in avgs && now >= s.nextHour.value
    ensures var r := HourlyStep(s, rows, now, avgs, fields);
      var powers := Window(rows, "ups_realpower", s.nextHour.value - HOUR, s.nextHour.value);
      r.0.hourlyData == [] && r.0.nextHour == Some(GetNextHour(now))
      && r.1 == if |powers| > 0 then fields["ups_realpower_hrs" := Num(Round2(Mean(powers)))] else fields
  {
  }

  /** Before the hour, the hourly step only records the minute's power. */
  lemma HourlyStepBeforeHour(s: CacheState, rows: seq<Row>, now: int, avgs: map<string, Value>, fields: map<string, Value>)
    requires s.nextHour.Some? && s.nextSaveTime.Some?
    requires "ups_realpower" !in avgs || now < s.nextHour.value
    ensures var r := HourlyStep(s, rows, now, avgs, fields);
      r.1 == fields && r.0.nextHour == s.nextHour
      && r.0.hourlyData ==
           if "ups_realpower" in avgs then s.hourlyData + [(s.nextSaveTime.value, avgs["ups_realpower"])]
           else s.hourlyData
  {
  }

  /** The state a flush starts from: `next_hour` set on the first call. */
  function WithHour(s: CacheState, now: int): (r: CacheState)
    ensures r.nextHour.Some? && r.data == s.data && r.nextSaveTime == s.nextSaveTime
    ensures ValidState(s) ==> ValidState(r)
  {
    if s.nextHour.None? then s.(nextHour := Some(GetNextHour(now))) else s
  }

  datatype SaveOutcome = SaveOutcome(state: CacheState, rows: seq<Row>, saved: bool)

  /** `calculate_and_save_averages` on the cache state and the table rows.
    * `commitOk` and `dailyCommitOk` say whether the two transactions succeed. */
  function SaveStep(s: CacheState, rows: seq<Row>, now: int, columns: set<string>, commitOk: bool, dailyCommitOk: bool)
    : SaveOutcome
  {
    var s1 := WithHour(s, now);
    var avgs := CalculateAverages(s1.data);
    if !IsSaveTime(s1, now) || avgs.None? || avgs.value == map[] then SaveOutcome(s1, rows, false)
    else
      var stamp := s1.nextSaveTime.value;
      var step := HourlyStep(s1, rows, now, avgs.value, Record(stamp, avgs.value, columns).cols);
      if !commitOk then SaveOutcome(step.0, rows, false)
      else
        var s3 := step.0.(data := [], nextSaveTime := Some(GetNextMinute(now)));
        var rows1 := rows + [Row(stamp, step.1)];
        if DailyDue(s3, now) then
          SaveOutcome(s3.(lastDailyAggregation := Some(Date(now))), AggregateDaily(rows1, now, dailyCommitOk), true)
        else SaveOutcome(s3, rows1, true)
  }

  /** A flush never changes the buffer size. */
  lemma SaveStepKeepsSize(s: CacheState, rows: seq<Row>, now: int, columns: set<string>, c1: bool, c2: bool)
    ensures SaveStep(s, rows, now, columns, c1, c2).state.size == s.size
  {
  }

  /** Before the save time, or with nothing to average, a flush changes
    * nothing but the first `next_hour`. */
  lemma NotDueKeepsBuffer(s: CacheState, rows: seq<Row>, now: int, columns: set<string>, c1: bool, c2: bool)
    requires !IsSaveTime(s, now) || |s.data| == 0
    ensures var o := SaveStep(s, rows, now, columns, c1, c2);
      !o.saved && o.rows == rows && o.state.data == s.data && o.state.nextSaveTime == s.nextSaveTime
      && o.state.hourlyData == s.hourlyData && o.state.lastDailyAggregation == s.lastDailyAggregation
      && o.state.nextHour == (if s.nextHour.None? then Some(GetNextHour(now)) else s.nextHour)
  {
  }

  /** What a flush writes and leaves: one row stamped at the save time
    * holding the hourly step's columns, an empty buffer, the next minute
    * scheduled and the hourly state of the hourly step. */
  lemma {:induction false} HourlyOfSave(s: CacheState, rows: seq<Row>, now: int, columns: set<string>, c1: bool, c2: bool)
    requires ValidState(s)
    requires SaveStep(s, rows, now, columns, c1, c2).saved
    ensures |s.data| > 0 && c1
    ensures var o := SaveStep(s, rows, now, columns, c1, c2);
      var avgs := CalculateAverages(s.data).value;
      var step := HourlyStep(WithHour(s, now), rows, now, avgs, Record(s.nextSaveTime.value, avgs, columns).cols);
      |o.rows| > |rows| && o.rows[..|rows|] == rows && o.rows[|rows|] == Row(s.nextSaveTime.value, step.1)
      && o.state.hourlyData == step.0.hourlyData && o.state.nextHour == step.0.nextHour
      && o.state.data == [] && o.state.nextSaveTime == Some(GetNextMinute(now))
      && ValidState(o.state)
  {
    var s1 := WithHour(s, now);
    var avgs := CalculateAverages(s.data).value;
    var stamp := s.nextSaveTime.value;
    var step := HourlyStep(s1, rows, now, avgs, Record(stamp, avgs, columns).cols);
    var rows1 := rows + [Row(stamp, step.1)];
    assert rows1[..|rows|] == rows;
    assert rows1[|rows|] == Row(stamp, step.1);
    assert |AggregateDaily(rows1, now, c2)| >= |rows1|;
    assert AggregateDaily(rows1, now, c2)[..|rows1|] == rows1;
    assert ValidState(step.0);
  }

  /** A successful flush writes one record stamped with the scheduled save
    * time whose columns, apart from the hourly average, are the averages the
    * table has columns for; it empties the buffer and schedules the next
    * minute. */
  lemma SavedFlushRecord(s: CacheState, rows: seq<Row>, now: int, columns: set<string>, c1: bool, c2: bool)
    requires ValidState(s)
    requires SaveStep(s, rows, now, columns, c1, c2).saved
    ensures |s.data| > 0
    ensures var o := SaveStep(s, rows, now, columns, c1, c2);
      var rec := Record(s.nextSaveTime.value, CalculateAverages(s.data).value, columns);
      c1 && |o.rows| >= |rows| + 1 && o.rows[..|rows|] == rows
      && o.rows[|rows|].ts == s.nextSaveTime.value
      && (forall k :: k in o.rows[|rows|].cols ==> k in columns || k == "ups_realpower_hrs")
      && (forall k :: k != "ups_realpower_hrs" ==> (k in o.rows[|rows|].cols <==> k in rec.cols))
      && (forall k :: k in o.rows[|rows|].cols && k != "ups_realpower_hrs" ==>
            o.rows[|rows|].cols[k] == CalculateAverages(s.data).value[k])
      && o.state.data == [] && o.state.nextSaveTime == Some(GetNextMinute(now))
      && ValidState(o.state)
  {
    HourlyOfSave(s, rows, now, columns, c1, c2);
    var avgs := CalculateAverages(s.data).value;
    var rec := Record(s.nextSaveTime.value, avgs, columns);
    HourlyStepKeepsFields(WithHour(s, now), rows, now, avgs, rec.cols);
  }

  /** A failed commit keeps the buffer and the save time, so the same samples
    * are flushed again next time. */
  lemma FailedCommitKeepsBuffer(s: CacheState, rows: seq<Row>, now: int, columns: set<string>, c2: bool)
    ensures var o := SaveStep(s, rows, now, columns, false, c2);
      !o.saved && o.rows == rows && o.state.data == s.data && o.state.nextSaveTime == s.nextSaveTime
  {
  }

  /** The daily aggregate is written at most once per date. */
  lemma DailyOncePerDate(s: CacheState, rows: seq<Row>, now: int, columns: set<string>, c1: bool, c2: bool)
    requires s.lastDailyAggregation == Some(Date(now))
    ensures var o := SaveStep(s, rows, now, columns, c1, c2);
      |o.rows| <= |rows| + 1 && o.state.lastDailyAggregation == s.lastDailyAggregation
  {
  }

  /** Before the hour is over no hourly average is written: the record holds
    * exactly the averaged columns, the minute's power joins the hour's list
    * and `next_hour` keeps the value it has (set on the first call). */
  lemma HourlyAverageOnlyAfterHour(s: CacheState, rows: seq<Row>, now: int, columns: set<string>, c1: bool, c2: bool)
    requires ValidState(s) && now < WithHour(s, now).nextHour.value
    requires SaveStep(s, rows, now, columns, c1, c2).saved
    ensures |s.data| > 0
    ensures var o := SaveStep(s, rows, now, columns, c1, c2);
      var avgs := CalculateAverages(s.data).value;
      o.rows[|rows|].cols == Record(s.nextSaveTime.value, avgs, columns).cols
      && ("ups_realpower_hrs" !in avgs ==> "ups_realpower_hrs" !in o.rows[|rows|].cols)
      && o.state.nextHour == WithHour(s, now).nextHour
      && o.state.hourlyData ==
           if "ups_realpower" in avgs then s.hourlyData + [(s.nextSaveTime.value, avgs["ups_realpower"])]
           else s.hourlyData
  {
    HourlyOfSave(s, rows, now, columns, c1, c2);
    var avgs := CalculateAverages(s.data).value;
    HourlyStepBeforeHour(WithHour(s, now), rows, now, avgs, Record(s.nextSaveTime.value, avgs, columns).cols);
  }

  /** Once the hour is over, a flush with a power average stores the mean
    * of the powers the table holds for that hour as `ups_realpower_hrs`
    * (when it holds any), empties the hour's list and moves to the hour
    * after `now`. */
  lemma HourlyAverageAfterHour(s: CacheState, rows: seq<Row>, now: int, columns: set<string>, c1: bool, c2: bool)
    requires ValidState(s) && s.nextHour.Some? && now >= s.nextHour.value
    requires SaveStep(s, rows, now, columns, c1, c2).saved
    requires |s.data| > 0 && "ups_realpower" in CalculateAverages(s.data).value
    ensures var o := SaveStep(s, rows, now, columns, c1, c2);
      var avgs := CalculateAverages(s.data).value;
      var rec := Record(s.nextSaveTime.value, avgs, columns);
      var powers := Window(rows, "ups_realpower", s.nextHour.value - HOUR, s.nextHour.value);
      o.rows[|rows|].ts == s.nextSaveTime.value
      && (|powers| > 0 ==> o.rows[|rows|].cols == rec.cols["ups_realpower_hrs" := Num(Round2(Mean(powers)))])
      && (|powers| == 0 ==> o.rows[|rows|].cols == rec.cols)
      && o.state.hourlyData == [] && o.state.nextHour == Some(GetNextHour(now))
  {
    HourlyOfSave(s, rows, now, columns, c1, c2);
    var avgs := CalculateAverages(s.data).value;
    assert WithHour(s, now) == s;
    HourlyStepAfterHour(s, rows, now, avgs, Record(s.nextSaveTime.value, avgs, columns).cols);
  }

  /** A flush without a power average leaves the hourly bookkeeping alone
    * and writes exactly the averaged columns. */
  lemma PowerlessFlushSkipsHourly(s: CacheState, rows: seq<Row>, now: int, columns: set<string>, c1: bool, c2: bool)
    requires ValidState(s)
    requires SaveStep(s, rows, now, columns, c1, c2).saved
    requires |s.data| > 0 && "ups_realpower" !in CalculateAverages(s.data).value
    ensures var o := SaveStep(s, rows, now, columns, c1, c2);
      o.rows[|rows|].cols == Record(s.nextSaveTime.value, CalculateAverages(s.data).value, columns).cols
      && o.state.hourlyData == s.hourlyData && o.state.nextHour == WithHour(s, now).nextHour
  {
    HourlyOfSave(s, rows, now, columns, c1, c2);
    var avgs := CalculateAverages(s.data).value;
    HourlyStepBeforeHour(WithHour(s, now), rows, now, avgs, Record(s.nextSaveTime.value, avgs, columns).cols);
  }

  /** The buffer size for a polling interval: `max(5, int(CACHE_SECONDS / interval))`. */
  function BufferSize(cacheSeconds: int, interval: int): (r: int)
    requires interval > 1
    ensures r >= 5
    ensures cacheSeconds < 5 * interval ==> r == 5
    ensures cacheSeconds >= 5 * interval ==> r * interval <= cacheSeconds < (r + 1) * interval
  {
    var q := TruncDiv(cacheSeconds, interval);
    if q > 5 then q else 5
  }

  /** `save_ups_data` on the state: resize for the polling interval (`None`
    * when the configuration cannot be read, meaning 1), then add the reading
    * and try to flush. Only a failed read is reported as a failure. */
  function SaveUpsDataSpec(s: CacheState, rows: seq<Row>, reading: Result<Dict<Value>>, now: int,
                           configuredInterval: Option<int>, columns: set<string>, c1: bool, c2: bool)
    : (SaveOutcome, Option<string>)
  {
    var interval := configuredInterval.GetOr(1);
    var s1 := if interval > 1 then s.(size := BufferSize(s.cacheSeconds, interval)) else s;
    match reading
    case Err(e) => (SaveOutcome(s1, rows, false), Some("Error saving data: " + e))
    case Ok(d) =>
      var o := SaveStep(AddSample(s1, now, d, now), rows, now, columns, c1, c2);
      (SaveOutcome(o.state, o.rows, true), None)
  }

  /** A failed read only resizes; a good read always reports success even
    * when nothing could be written. */
  lemma SaveUpsDataOutcome(s: CacheState, rows: seq<Row>, reading: Result<Dict<Value>>, now: int,
                           configuredInterval: Option<int>, columns: set<string>, c1: bool, c2: bool)
    requires ValidState(s)
    ensures var r := SaveUpsDataSpec(s, rows, reading, now, configuredInterval, columns, c1, c2);
      (reading.Err? ==> !r.0.saved && r.1.Some? && r.0.rows == rows && r.0.state.data == s.data)
      && (reading.Ok? ==> r.0.saved && r.1.None?)
      && (configuredInterval.None? ==> r.0.state.size == s.size)
  {
    var interval := configuredInterval.GetOr(1);
    var s1 := if interval > 1 then s.(size := BufferSize(s.cacheSeconds, interval)) else s;
    assert s1.data == s.data;
    var r := SaveUpsDataSpec(s, rows, reading, now, configuredInterval, columns, c1, c2);
    match reading {
      case Err(e) =>
        assert r == (SaveOutcome(s1, rows, false), Some("Error saving data: " + e));
      case Ok(d) =>
        var o := SaveStep(AddSample(s1, now, d, now), rows, now, columns, c1, c2);
        assert r == (SaveOutcome(o.state, o.rows, true), None);
        assert configuredInterval.None? ==> s1.size == s.size;
        SaveStepKeepsSize(AddSample(s1, now, d, now), rows, now, columns, c1, c2);
    }
  }

  class UPSDataCache {
    var size: int
    var cacheSeconds: int
    var data: seq<Sample>
    var nextSaveTime: Option<int>
    var nextHour: Option<int>
    var hourlyData: seq<(int, Value)>
    var lastDailyAggregation: Option<int>
    var lastBroadcast: Option<Payload>
    /** Every payload emitted to the WebSocket clients, oldest first. */
    var emitted: seq<Payload>

    function State(): CacheState
      reads this
    {
      CacheState(size, cacheSeconds, data, nextSaveTime, nextHour, hourlyData, lastDailyAggregation, lastBroadcast, emitted)
    }

    predicate Valid()
      reads this
    {
      ValidState(State())
    }

    /** The global cache is built with `size = CACHE_SECONDS`. */
    constructor (cacheSeconds: int)
      ensures Valid()
      ensures State() == CacheState(cacheSeconds, cacheSeconds, [], None, None, [], None, None, [])
    {
      size := cacheSeconds;
      this.cacheSeconds := cacheSeconds;
      data, nextSaveTime, nextHour, hourlyData := [], None, None, [];
      lastDailyAggregation, lastBroadcast, emitted := None, None, [];
    }

    /** `is_full` */
    predicate IsFull()
      reads this
    {
      |data| >= size
    }

    /** `get_latest_cache_data`: the last payload sent, `None` standing for `{}`. */
    function GetLatestCacheData(): (r: Option<Payload>)
      reads this
      ensures r == lastBroadcast
    {
      lastBroadcast
    }

    method BroadcastCacheUpdate(d: Dict<Value>, now: int)
      modifies this
      ensures State() == Broadcast(old(State()), d, now)
    {
      if |d| == 0 {
        return;
      }
      if lastBroadcast.Some? {
        var statusChanged := Get(d, "ups_status") != Get(lastBroadcast.value.fields, "ups_status");
        var significant := SignificantChange(d, lastBroadcast.value.fields, IMPORTANT_METRICS);
        ChangedAmongMeaning(d, lastBroadcast.value.fields, IMPORTANT_METRICS);
        if !statusChanged && !significant {
          return;
        }
      }
      lastBroadcast := Some(Payload(now, d));
      emitted := emitted + [Payload(now, d)];
    }

    method Add(timestamp: int, d: Dict<Value>, now: int)
      modifies this
      ensures State() == AddSample(old(State()), timestamp, d, now)
    {
      if nextSaveTime.None? {
        nextSaveTime := Some(GetNextMinute(timestamp));
      }
      var formatted := FormatKeys(d);
      data := data + [(timestamp, formatted)];
      BroadcastCacheUpdate(formatted, now);
    }

    method ShouldAggregateDaily(now: int) returns (due: bool)
      modifies this
      ensures due == DailyDue(old(State()), now)
      ensures State() == if due then old(State()).(lastDailyAggregation := Some(Date(now))) else old(State())
    {
      due := false;
      if HourOfDay(now) == 0 && MinuteOfHour(now) == 0 {
        if lastDailyAggregation != Some(Date(now)) {
          lastDailyAggregation := Some(Date(now));
          due := true;
        }
      }
    }

    method AggregateDailyData(table: Table, now: int, commitOk: bool)
      modifies table
      ensures table.rows == AggregateDaily(old(table.rows), now, commitOk)
    {
      var rec := DailyAggregate(table.rows, now);
      if rec.Some? && commitOk {
        table.rows := table.rows + [rec.value];
      }
    }

    method CalculateAndSaveAverages(table: Table, now: int, columns: set<string>, commitOk: bool, dailyCommitOk: bool)
      returns (saved: bool)
      modifies this, table
      ensures SaveOutcome(State(), table.rows, saved) == SaveStep(old(State()), old(table.rows), now, columns, commitOk, dailyCommitOk)
    {
      if nextHour.None? {
        nextHour := Some(GetNextHour(now));
      }
      var averages := CalculateAverages(data);
      if !IsSaveTime(State(), now) || averages.None? || averages.value == map[] {
        return false;
      }
      var avgs := averages.value;
      var stamp := nextSaveTime.value;
      var fields := UpdateHourly(table.rows, now, avgs, Record(stamp, avgs, columns).cols);
      if !commitOk {
        return false;
      }
      saved := Commit(table, now, stamp, fields, dailyCommitOk);
    }

    /** The hourly part of a flush (see `HourlyStep`). */
    method UpdateHourly(rows: seq<Row>, now: int, avgs: map<string, Value>, fields: map<string, Value>)
      returns (fields': map<string, Value>)
      requires nextHour.Some? && nextSaveTime.Some?
      modifies this
      ensures (State(), fields') == HourlyStep(old(State()), rows, now, avgs, fields)
    {
      fields' := fields;
      if "ups_realpower" in avgs {
        hourlyData := hourlyData + [(nextSaveTime.value, avgs["ups_realpower"])];
        if now >= nextHour.value {
          var exactHour := nextHour.value - HOUR;
          var powers := Window(rows, "ups_realpower", exactHour, exactHour + HOUR);
          if |powers| > 0 {
            fields' := fields["ups_realpower_hrs" := Num(Round2(Mean(powers)))];
          }
          hourlyData := [];
          nextHour := Some(GetNextHour(now));
        }
      }
    }

    /** The committed part of a flush: write the record, reset the buffer,
      * then the daily aggregation when due. */
    method Commit(table: Table, now: int, stamp: int, fields: map<string, Value>, dailyCommitOk: bool)
      returns (saved: bool)
      modifies this, table
      ensures saved
      ensures var s3 := old(State()).(data := [], nextSaveTime := Some(GetNextMinute(now)));
        var rows1 := old(table.rows) + [Row(stamp, fields)];
        if DailyDue(s3, now) then
          State() == s3.(lastDailyAggregation := Some(Date(now))) && table.rows == AggregateDaily(rows1, now, dailyCommitOk)
        else State() == s3 && table.rows == rows1
    {
      table.rows := table.rows + [Row(stamp, fields)];
      data := [];
      nextSaveTime := Some(GetNextMinute(now));
      var due := ShouldAggregateDaily(now);
      if due {
        AggregateDailyData(table, now, dailyCommitOk);
      }
      saved := true;
    }
  }

  method SaveUpsData(cache: UPSDataCache, table: Table, reading: Result<Dict<Value>>, now: int,
                     configuredInterval: Option<int>, columns: set<string>, commitOk: bool, dailyCommitOk: bool)
    returns (ok: bool, error: Option<string>)
    modifies cache, table
    ensures (SaveOutcome(cache.State(), table.rows, ok), error)
      == SaveUpsDataSpec(old(cache.State()), old(table.rows), reading, now, configuredInterval, columns, commitOk, dailyCommitOk)
  {
    var interval := configuredInterval.GetOr(1);
    if interval > 1 {
      cache.size := BufferSize(cache.cacheSeconds, interval);
    }
    match reading {
      case Err(e) =>
        return false, Some("Error saving data: " + e);
      case Ok(d) =>
        cache.Add(now, d, now);
        var _ := cache.CalculateAndSaveAverages(table, now, columns, commitOk, dailyCommitOk);
        return true, None;
    }
  }
}
