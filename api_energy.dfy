/** The energy page's JSON API: the hour-data check, the detailed series
  * of the date-range and hour modals, and the cost-trend period dispatch.
  * The series themselves are built by the energy module, which is not part
  * of this model: a reply names the series kind and the time window. */
module ApiEnergy {
  import opened Wrappers
  import opened Dynamic
  import opened Text
  import opened ApiCommon
  import Clock

  predicate HasRealpower(row: Row)
  {
    "ups_realpower" in row.cols
  }

  /** `/api/energy/has_hour_data`: rows of the last hour with a non-null
    * `ups_realpower`. */
  function HasHourData(table: Result<seq<Row>>, now: int): (r: HourReply)
    ensures table.Err? ==> !r.hasData && r.error == Some(table.error)
    ensures table.Ok? && |LastHour(table.value, now, HasRealpower)| < MIN_ROWS ==> r == HourReply(false, None)
    ensures table.Ok? && |LastHour(table.value, now, HasRealpower)| >= MIN_ROWS ==>
      (r.hasData <==> Spans(table.value, now, HasRealpower))
  {
    HourData(table, now, HasRealpower)
  }

  /** A row without `ups_realpower` never changes the verdict. */
  lemma RealpowerlessRowsIgnored(rows: seq<Row>, extra: seq<Row>, now: int)
    requires forall i :: 0 <= i < |extra| ==> "ups_realpower" !in extra[i].cols
    ensures HasHourData(Ok(rows + extra), now) == HasHourData(Ok(rows), now)
  {
    IgnoredRows(rows, extra, [], now, HasRealpower);
    assert rows + extra + [] == rows + extra && rows + [] == rows;
  }

  /** Which formatting the series gets. */
  datatype SeriesKind = Hrs | Realtime | Calculated | Range

  /** A reply: a failure with its message, or a series of `kind` over
    * `[start, end]`. */
  datatype Trend = Failure(error: string) | Series(kind: SeriesKind, start: int, end: int)

  const MISSING_PARAMETERS: string := "Missing required parameters"

  /** The rows with `start <= timestamp <= end`, in table order. */
  function Between(rows: seq<Row>, start: int, end: int): (r: seq<Row>)
    ensures |r| <= |rows|
    ensures forall x :: x in r ==> x in rows && start <= x.ts <= end
    ensures forall x :: x in rows && start <= x.ts <= end ==> x in r
  {
    if |rows| == 0 then []
    else
      var rest := Between(rows[1..], start, end);
      assert forall x :: x in rows ==> x == rows[0] || x in rows[1..];
      if start <= rows[0].ts <= end then [rows[0]] + rest else rest
  }

  /** `preferred` when some row has a non-null `col` (an empty result
    * cannot), `Calculated` otherwise. */
  function Prefer(data: seq<Row>, col: string, preferred: SeriesKind): (k: SeriesKind)
    ensures k == preferred <==> preferred == Calculated || exists x :: x in data && col in x.cols
    ensures k == preferred || k == Calculated
  {
    if exists x :: x in data && col in x.cols then preferred else Calculated
  }

  /** Every 'Z' replaced by "+00:00". */
  function ReplaceZ(s: string): (r: string)
    ensures 'Z' !in r
    ensures 'Z' !in s ==> r == s
  {
    if |s| == 0 then []
    else (if s[0] == 'Z' then "+00:00" else [s[0]]) + ReplaceZ(s[1..])
  }

  /** The rewrite applied before the ISO 8601 parse: a string ending in
    * 'Z' has its 'Z's replaced by the explicit UTC offset. */
  function FixZone(s: string): (r: string)
    ensures !EndsWith(r, "Z")
    ensures !EndsWith(s, "Z") ==> r == s
  {
    if EndsWith(s, "Z") then
      var r := ReplaceZ(s);
      assert |r| > 0 ==> r[|r| - 1] in r;
      r
    else s
  }

  lemma {:induction false} ReplaceZAppend(p: string, q: string)
    ensures ReplaceZ(p + q) == ReplaceZ(p) + ReplaceZ(q)
  {
    if |p| > 0 {
      var head := if p[0] == 'Z' then "+00:00" else [p[0]];
      assert (p + q)[0] == p[0] && (p + q)[1..] == p[1..] + q;
      assert ReplaceZ(p + q) == head + ReplaceZ(p[1..] + q);
      ReplaceZAppend(p[1..], q);
      assert ReplaceZ(p) == head + ReplaceZ(p[1..]);
    } else {
      assert p + q == q;
    }
  }

  /** A UTC timestamp with a single trailing 'Z' gets exactly "+00:00" in its place. */
  lemma TrailingZ(p: string)
    requires 'Z' !in p
    ensures FixZone(p + "Z") == p + "+00:00"
  {
    ReplaceZAppend(p, "Z");
    assert EndsWith(p + "Z", "Z");
  }

  /** A missing or empty request argument. */
  predicate Absent(arg: Option<string>)
  {
    arg.None? || arg.value == ""
  }

  /** `/api/energy/detailed`: the three arguments must be present, both
    * times must parse as ISO 8601 (after the 'Z' rewrite, through `iso`),
    * the model must load (`table`), and `detail_type` must be 'day'
    * (preferring the 'hrs' series) or 'hour' (preferring the 'realtime'
    * series). */
  function Detailed(fromTime: Option<string>, toTime: Option<string>, detailType: Option<string>,
                    iso: string -> Result<int>, table: Result<seq<Row>>): (r: Trend)
    ensures Absent(fromTime) || Absent(toTime) || Absent(detailType) ==> r == Failure(MISSING_PARAMETERS)
    ensures r.Series? ==> !Absent(fromTime) && !Absent(toTime) && !Absent(detailType)
    ensures r.Series? ==> iso(FixZone(fromTime.value)) == Ok(r.start) && iso(FixZone(toTime.value)) == Ok(r.end)
    ensures r.Series? ==> table.Ok? && (detailType.value == "day" || detailType.value == "hour")
    ensures r.Series? && detailType.value == "day" ==> r.kind != Realtime && r.kind != Range
    ensures r.Series? && detailType.value == "hour" ==> r.kind != Hrs && r.kind != Range
    ensures (!Absent(fromTime) && !Absent(toTime) && !Absent(detailType) && iso(FixZone(fromTime.value)).Ok? &&
               iso(FixZone(toTime.value)).Ok? && table.Ok? && detailType.value != "day" && detailType.value != "hour") ==>
      r == Failure("Invalid detail type: " + detailType.value)
  {
    if Absent(fromTime) || Absent(toTime) || Absent(detailType) then Failure(MISSING_PARAMETERS)
    else
      match iso(FixZone(fromTime.value))
      case Err(e) => Failure("Invalid time format: " + e)
      case Ok(start) =>
        match iso(FixZone(toTime.value))
        case Err(e) => Failure("Invalid time format: " + e)
        case Ok(end) =>
          match table
          case Err(e) => Failure(e)
          case Ok(rows) =>
            var data := Between(rows, start, end);
            if detailType.value == "day" then Series(Prefer(data, "ups_realpower_hrs", Hrs), start, end)
            else if detailType.value == "hour" then Series(Prefer(data, "ups_realpower", Realtime), start, end)
            else Failure("Invalid detail type: " + detailType.value)
  }

  /** The day detail is served from `ups_realpower_hrs` exactly when some
    * row of the window has it. */
  lemma DayDetailUsesHrs(fromTime: string, toTime: string, iso: string -> Result<int>, rows: seq<Row>)
    requires fromTime != "" && toTime != ""
    requires iso(FixZone(fromTime)).Ok? && iso(FixZone(toTime)).Ok?
    ensures var r := Detailed(Some(fromTime), Some(toTime), Some("day"), iso, Ok(rows));
      r.Series? && (r.kind == Hrs <==> exists x :: x in rows && r.start <= x.ts <= r.end && "ups_realpower_hrs" in x.cols)
  {
    var start := iso(FixZone(fromTime)).value;
    var end := iso(FixZone(toTime)).value;
    var data := Between(rows, start, end);
    assert Detailed(Some(fromTime), Some(toTime), Some("day"), iso, Ok(rows))
      == Series(Prefer(data, "ups_realpower_hrs", Hrs), start, end);
    assert (exists x :: x in data && "ups_realpower_hrs" in x.cols) <==>
      exists x :: x in rows && start <= x.ts <= end && "ups_realpower_hrs" in x.cols;
  }

  /** The message of the `UnboundLocalError` raised when `period_type`
    * matches no branch and `series` is read unassigned (Python 3.11 wording). */
  const UNBOUND_SERIES: string := "cannot access local variable 'series' where it is not associated with a value"

  /** The last second of a day: `replace(hour=23, minute=59, second=59)`. */
  function EndOfDay(day: int): (t: int)
    ensures t - day == Clock.DAY - 1
  {
    day + 23 * Clock.HOUR + 59 * Clock.MINUTE + 59
  }

  /** `/api/energy/cost-trend`. `parseDate` is `strptime(…, '%Y-%m-%d')`
    * giving the day's first second; `parseClock` is `strptime(…, '%H:%M')`
    * giving seconds after midnight; `None` arguments reach them and raise
    * there. Every raised error becomes a failure with its message. */
  function CostTrend(periodType: Option<string>, fromTime: Option<string>, toTime: Option<string>, now: int,
                     parseDate: Option<string> -> Result<int>, parseClock: Option<string> -> Result<int>,
                     table: Result<seq<Row>>): (r: Trend)
    ensures table.Err? ==> r == Failure(table.error)
    ensures r.Series? ==> periodType.GetOr("day") in {"range", "realtime", "today", "day"}
    ensures r.Series? && periodType.GetOr("day") == "range" ==>
      r.kind == Range && Ok(r.start) == parseDate(fromTime) && parseDate(toTime).Ok? && r.end == EndOfDay(parseDate(toTime).value)
    ensures r.Series? && periodType.GetOr("day") == "realtime" ==>
      r.kind != Hrs && r.kind != Range && r.start == now - 5 * Clock.MINUTE && r.end == now
    ensures r.Series? && periodType.GetOr("day") == "today" ==>
      r.kind != Realtime && r.kind != Range && parseClock(fromTime).Ok? && parseClock(toTime).Ok? &&
      r.start == Clock.Truncate(now, Clock.DAY) + parseClock(fromTime).value &&
      r.end == Clock.Truncate(now, Clock.DAY) + parseClock(toTime).value
    ensures table.Ok? && periodType.GetOr("day") == "today" && parseClock(fromTime).Err? ==> r == Failure(parseClock(fromTime).error)
    ensures r.Series? && periodType.GetOr("day") == "day" ==>
      r.kind != Realtime && r.kind != Range && Ok(r.start) == parseDate(fromTime) && r.end == EndOfDay(r.start)
    ensures table.Ok? && !(periodType.GetOr("day") in {"range", "realtime", "today", "day"}) ==> r == Failure(UNBOUND_SERIES)
  {
    match table
    case Err(e) => Failure(e)
    case Ok(rows) =>
      var period := periodType.GetOr("day");
      if period == "range" then
        match parseDate(fromTime)
        case Err(e) => Failure(e)
        case Ok(start) =>
          match parseDate(toTime)
          case Err(e) => Failure(e)
          case Ok(last) => Series(Range, start, EndOfDay(last))
      else if period == "realtime" then
        var start := now - 5 * Clock.MINUTE;
        Series(Prefer(Between(rows, start, now), "ups_realpower", Realtime), start, now)
      else if period == "today" then
        match parseClock(fromTime)
        case Err(e) => Failure(e)
        case Ok(a) =>
          match parseClock(toTime)
          case Err(e) => Failure(e)
          case Ok(b) =>
            var midnight := Clock.Truncate(now, Clock.DAY);
            Series(Prefer(Between(rows, midnight + a, midnight + b), "ups_realpower_hrs", Hrs), midnight + a, midnight + b)
      else if period == "day" then
        match parseDate(fromTime)
        case Err(e) => Failure(e)
        case Ok(day) => Series(Prefer(Between(rows, day, EndOfDay(day)), "ups_realpower_hrs", Hrs), day, EndOfDay(day))
      else Failure(UNBOUND_SERIES)
  }

  /** Today's cost trend is served from `ups_realpower_hrs` exactly when some
    * row between the two clock times of the current day has it. */
  lemma TodayTrendUsesHrs(periodType: Option<string>, fromTime: Option<string>, toTime: Option<string>, now: int,
                          parseDate: Option<string> -> Result<int>, parseClock: Option<string> -> Result<int>,
                          rows: seq<Row>)
    requires periodType == Some("today")
    requires parseClock(fromTime).Ok? && parseClock(toTime).Ok?
    ensures var r := CostTrend(periodType, fromTime, toTime, now, parseDate, parseClock, Ok(rows));
      r.Series? && (r.kind == Hrs || r.kind == Calculated) &&
      (r.kind == Hrs <==> exists x :: x in rows && r.start <= x.ts <= r.end && "ups_realpower_hrs" in x.cols)
  {
    var midnight := Clock.Truncate(now, Clock.DAY);
    var start := midnight + parseClock(fromTime).value;
    var end := midnight + parseClock(toTime).value;
    var data := Between(rows, start, end);
    assert CostTrend(periodType, fromTime, toTime, now, parseDate, parseClock, Ok(rows))
      == Series(Prefer(data, "ups_realpower_hrs", Hrs), start, end);
    assert (exists x :: x in data && "ups_realpower_hrs" in x.cols) <==>
      exists x :: x in rows && start <= x.ts <= end && "ups_realpower_hrs" in x.cols;
  }
}
