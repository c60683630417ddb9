/** The power page's JSON API: the hour-data check and the argument
  * dispatch of the stats and history endpoints. */
module ApiPower {
  import opened Wrappers
  import opened Dynamic
  import opened ApiCommon

  /** A row with a direct (`ups_realpower`) or an indirect (`ups_load`)
    * power measure. */
  predicate HasPower(row: Row)
  {
    "ups_realpower" in row.cols || "ups_load" in row.cols
  }

  /** `/api/power/has_hour_data`. */
  function HasHourData(table: Result<seq<Row>>, now: int): (r: HourReply)
    ensures table.Err? ==> !r.hasData && r.error == Some(table.error)
    ensures table.Ok? && |LastHour(table.value, now, HasPower)| < MIN_ROWS ==> r == HourReply(false, None)
    ensures table.Ok? && |LastHour(table.value, now, HasPower)| >= MIN_ROWS ==>
      (r.hasData <==> Spans(table.value, now, HasPower))
  {
    HourData(table, now, HasPower)
  }

  /** A row with neither measure never changes the verdict. */
  lemma PowerlessRowsIgnored(rows: seq<Row>, extra: seq<Row>, now: int)
    requires forall i :: 0 <= i < |extra| ==> "ups_realpower" !in extra[i].cols && "ups_load" !in extra[i].cols
    ensures HasHourData(Ok(rows + extra), now) == HasHourData(Ok(rows), now)
  {
    IgnoredRows(rows, extra, [], now, HasPower);
    assert rows + extra + [] == rows + extra && rows + [] == rows;
  }

  /** A row with only `ups_load` counts as much as one with `ups_realpower`. */
  lemma LoadOnlyRowsCount(rows: seq<Row>, now: int)
    requires forall i :: 0 <= i < |rows| ==> InLastHour(rows[i], now) && "ups_load" in rows[i].cols
    ensures |LastHour(rows, now, HasPower)| == |rows|
  {
    LastHourKeepsAll(rows, now, HasPower);
  }

  /** How the stats or history function is called. */
  datatype Call =
    | Today
    | OnDay(fromTime: Option<string>, toTime: Option<string>, date: int)
    | ForPeriod(period: string, fromTime: Option<string>, toTime: Option<string>)
    | WithDay(period: string, fromTime: Option<string>, toTime: Option<string>, selectedDay: Option<string>)

  /** `/api/power/stats`: 'today' is passed alone; 'day' gets
    * `selected_date`, or the current time when it is absent or does not
    * parse; any other period is passed with its range. */
  function StatsCall(period: Option<string>, fromTime: Option<string>, toTime: Option<string>,
                     selectedDate: Option<string>, now: int, parseDate: string -> Option<int>): (c: Call)
    ensures period.GetOr("day") == "today" <==> c == Today
    ensures period.GetOr("day") == "day" <==> c.OnDay?
    ensures c.OnDay? ==> c.fromTime == fromTime && c.toTime == toTime
    ensures c.OnDay? && (selectedDate.None? || selectedDate.value == "" || parseDate(selectedDate.value).None?) ==> c.date == now
    ensures c.OnDay? && selectedDate.Some? && selectedDate.value != "" && parseDate(selectedDate.value).Some? ==>
      c.date == parseDate(selectedDate.value).value
    ensures c.ForPeriod? ==> c == ForPeriod(period.GetOr("day"), fromTime, toTime)
    ensures !c.WithDay?
  {
    var p := period.GetOr("day");
    if p == "today" then Today
    else if p == "day" then OnDay(fromTime, toTime, SelectedDateOrNow(selectedDate, now, parseDate))
    else ForPeriod(p, fromTime, toTime)
  }

  /** `/api/power/history`: 'today' is passed alone, anything else with
    * its range and `selected_day` as given. */
  function HistoryCall(period: Option<string>, fromTime: Option<string>, toTime: Option<string>,
                       selectedDay: Option<string>): (c: Call)
    ensures period.GetOr("day") == "today" <==> c == Today
    ensures c != Today ==> c == WithDay(period.GetOr("day"), fromTime, toTime, selectedDay)
  {
    var p := period.GetOr("day");
    if p == "today" then Today else WithDay(p, fromTime, toTime, selectedDay)
  }
}
