/** The battery page's JSON API: the hour-data check and the argument
  * dispatch of the stats and history endpoints. */
module ApiBattery {
  import opened Wrappers
  import opened Dynamic
  import opened ApiCommon

  predicate HasCharge(row: Row)
  {
    "battery_charge" in row.cols
  }

  /** `/api/battery/has_hour_data`: rows of the last hour with a non-null
    * `battery_charge`. */
  function HasHourData(table: Result<seq<Row>>, now: int): (r: HourReply)
    ensures table.Err? ==> !r.hasData && r.error == Some(table.error)
    ensures table.Ok? && |LastHour(table.value, now, HasCharge)| < MIN_ROWS ==> r == HourReply(false, None)
    ensures table.Ok? && |LastHour(table.value, now, HasCharge)| >= MIN_ROWS ==>
      (r.hasData <==> Spans(table.value, now, HasCharge))
  {
    HourData(table, now, HasCharge)
  }

  /** A row without `battery_charge` never changes the verdict. */
  lemma ChargelessRowsIgnored(rows: seq<Row>, extra: seq<Row>, now: int)
    requires forall i :: 0 <= i < |extra| ==> "battery_charge" !in extra[i].cols
    ensures HasHourData(Ok(rows + extra), now) == HasHourData(Ok(rows), now)
  {
    IgnoredRows(rows, extra, [], now, HasCharge);
    assert rows + extra + [] == rows + extra && rows + [] == rows;
  }

  /** How the stats or history function is called. */
  datatype Call =
    | Today
    | OnDay(fromTime: Option<string>, toTime: Option<string>, date: Option<int>)
    | ForPeriod(period: string, fromTime: Option<string>, toTime: Option<string>)

  /** `/api/battery/stats`: 'day' gets `selected_date`, or the current time
    * when it is absent or does not parse; any other period, 'today'
    * included, is passed with its range. */
  function StatsCall(period: Option<string>, fromTime: Option<string>, toTime: Option<string>,
                     selectedDate: Option<string>, now: int, parseDate: string -> Option<int>): (c: Call)
    ensures c != Today
    ensures period.GetOr("day") == "day" <==> c.OnDay?
    ensures c.OnDay? ==> c.fromTime == fromTime && c.toTime == toTime && c.date.Some?
    ensures c.OnDay? && (selectedDate.None? || selectedDate.value == "" || parseDate(selectedDate.value).None?) ==> c.date == Some(now)
    ensures c.OnDay? && selectedDate.Some? && selectedDate.value != "" && parseDate(selectedDate.value).Some? ==>
      c.date == parseDate(selectedDate.value)
    ensures c.ForPeriod? ==> c == ForPeriod(period.GetOr("day"), fromTime, toTime)
  {
    var p := period.GetOr("day");
    if p == "day" then OnDay(fromTime, toTime, Some(SelectedDateOrNow(selectedDate, now, parseDate)))
    else ForPeriod(p, fromTime, toTime)
  }

  /** `/api/battery/history`: period 'today' or `today_mode=true` is served
    * as 'today'; 'day' with a `selected_date` passes the parsed date, or
    * no date when it does not parse; anything else passes its range. */
  function HistoryCall(period: Option<string>, fromTime: Option<string>, toTime: Option<string>,
                       selectedDate: Option<string>, todayMode: Option<string>, parseDate: string -> Option<int>): (c: Call)
    ensures (period.GetOr("day") == "today" || todayMode == Some("true")) <==> c == Today
    ensures c.OnDay? <==> period.GetOr("day") == "day" && todayMode != Some("true") && selectedDate.Some? && selectedDate.value != ""
    ensures c.OnDay? ==> c.fromTime == fromTime && c.toTime == toTime && c.date == parseDate(selectedDate.value)
    ensures c.ForPeriod? ==> c == ForPeriod(period.GetOr("day"), fromTime, toTime)
  {
    var p := period.GetOr("day");
    if p == "today" || todayMode == Some("true") then Today
    else if p == "day" && selectedDate.Some? && selectedDate.value != "" then OnDay(fromTime, toTime, parseDate(selectedDate.value))
    else ForPeriod(p, fromTime, toTime)
  }

  /** The two endpoints treat a malformed `selected_date` differently:
    * stats fall back to the current time, history to no date at all. */
  lemma MalformedSelectedDate(fromTime: Option<string>, toTime: Option<string>, selected: string, now: int,
                              parseDate: string -> Option<int>)
    requires selected != "" && parseDate(selected).None?
    ensures StatsCall(Some("day"), fromTime, toTime, Some(selected), now, parseDate) == OnDay(fromTime, toTime, Some(now))
    ensures HistoryCall(Some("day"), fromTime, toTime, Some(selected), None, parseDate) == OnDay(fromTime, toTime, None)
  {
  }
}
