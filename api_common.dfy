/** What the chart APIs of the energy, power, battery and voltage pages
  * share: the "enough data for the last hour" predicate and the fallback
  * for an unparsable `selected_date`. */
module ApiCommon {
  import opened Wrappers
  import opened Dynamic
  import Clock

  /** At least this many rows are needed in the last hour. */
  const MIN_ROWS: int := 30
  /** They must span at least 50 minutes. */
  const MIN_SPAN_MINUTES: real := 50.0

  /** The reply of a `has_hour_data` endpoint: the verdict and, when the
    * check raised, the exception's text. */
  datatype HourReply = HourReply(hasData: bool, error: Option<string>)

  /** The timestamps of the rows with `now - 1h <= timestamp <= now` that
    * `keep` accepts (the query's non-null column filter), in table order. */
  function LastHour(rows: seq<Row>, now: int, keep: Row -> bool): (r: seq<int>)
    ensures |r| <= |rows|
    ensures forall t :: t in r ==> now - Clock.HOUR <= t <= now
  {
    if |rows| == 0 then []
    else
      var rest := LastHour(rows[1..], now, keep);
      if now - Clock.HOUR <= rows[0].ts <= now && keep(rows[0]) then [rows[0].ts] + rest else rest
  }

  /** A timestamp is selected exactly when some accepted row in the window carries it. */
  lemma {:induction false} LastHourMembers(rows: seq<Row>, now: int, keep: Row -> bool, t: int)
    ensures t in LastHour(rows, now, keep) <==>
      exists i :: 0 <= i < |rows| && rows[i].ts == t && now - Clock.HOUR <= t <= now && keep(rows[i])
  {
    if |rows| > 0 {
      LastHourMembers(rows[1..], now, keep, t);
      if t in LastHour(rows[1..], now, keep) {
        var i :| 0 <= i < |rows[1..]| && rows[1..][i].ts == t && now - Clock.HOUR <= t <= now && keep(rows[1..][i]);
        assert rows[i + 1] == rows[1..][i];
      }
      if exists i :: 0 <= i < |rows| && rows[i].ts == t && now - Clock.HOUR <= t <= now && keep(rows[i]) {
        var i :| 0 <= i < |rows| && rows[i].ts == t && now - Clock.HOUR <= t <= now && keep(rows[i]);
        if i > 0 {
          assert rows[1..][i - 1] == rows[i];
        }
      }
    }
  }

  /** `min(timestamps)`. */
  function Earliest(ts: seq<int>): (m: int)
    requires |ts| > 0
    ensures m in ts
    ensures forall t :: t in ts ==> m <= t
  {
    if |ts| == 1 then ts[0]
    else
      var rest := Earliest(ts[1..]);
      assert forall t :: t in ts ==> t == ts[0] || t in ts[1..];
      if ts[0] <= rest then ts[0] else rest
  }

  /** `max(timestamps)`. */
  function Latest(ts: seq<int>): (m: int)
    requires |ts| > 0
    ensures m in ts
    ensures forall t :: t in ts ==> t <= m
  {
    if |ts| == 1 then ts[0]
    else
      var rest := Latest(ts[1..]);
      assert forall t :: t in ts ==> t == ts[0] || t in ts[1..];
      if ts[0] >= rest then ts[0] else rest
  }

  /** Two of the timestamps lie at least 50 minutes apart. */
  predicate FarApart(ts: seq<int>)
  {
    exists a, b :: a in ts && b in ts && b - a >= 50 * Clock.MINUTE
  }

  /** The verdict on the selected timestamps: fewer than 30 is not enough;
    * otherwise (latest - earliest), in minutes, must reach 50. */
  function Enough(ts: seq<int>): (r: bool)
    ensures r <==> |ts| >= MIN_ROWS && FarApart(ts)
  {
    if |ts| < MIN_ROWS then false
    else
      var span := Latest(ts) - Earliest(ts);
      assert (span as real) / 60.0 >= MIN_SPAN_MINUTES <==> span >= 50 * Clock.MINUTE;
      (span as real) / 60.0 >= MIN_SPAN_MINUTES
  }

  /** The order in which the query returns the rows does not matter. */
  lemma EnoughOrderFree(xs: seq<int>, ys: seq<int>)
    requires multiset(xs) == multiset(ys)
    ensures Enough(xs) == Enough(ys)
  {
    assert |xs| == |multiset(xs)| == |multiset(ys)| == |ys|;
    forall t
      ensures t in xs <==> t in ys
    {
      assert t in xs <==> t in multiset(xs);
      assert t in ys <==> t in multiset(ys);
    }
  }

  /** The whole endpoint: the query either raised (its message is
    * returned with `has_data` false) or gave the timestamps to judge. */
  function HourCheck(query: Result<seq<int>>): (r: HourReply)
    ensures r.error.Some? <==> query.Err?
    ensures query.Err? ==> r == HourReply(false, Some(query.error))
    ensures query.Ok? ==> (r.hasData <==> (|query.value| >= MIN_ROWS &&
      FarApart(query.value)))
  {
    match query
    case Err(e) => HourReply(false, Some(e))
    case Ok(ts) => HourReply(Enough(ts), None)
  }

  predicate InLastHour(row: Row, now: int)
  {
    now - Clock.HOUR <= row.ts <= now
  }

  /** Two accepted rows of the last hour lie at least 50 minutes apart. */
  predicate Spans(rows: seq<Row>, now: int, keep: Row -> bool)
  {
    exists i, j :: 0 <= i < |rows| && 0 <= j < |rows| && InLastHour(rows[i], now) && keep(rows[i]) &&
      InLastHour(rows[j], now) && keep(rows[j]) && rows[j].ts - rows[i].ts >= 50 * Clock.MINUTE
  }

  lemma SpansMeaning(rows: seq<Row>, now: int, keep: Row -> bool)
    ensures FarApart(LastHour(rows, now, keep)) <==> Spans(rows, now, keep)
  {
    var ts := LastHour(rows, now, keep);
    if exists a, b :: a in ts && b in ts && b - a >= 50 * Clock.MINUTE {
      var a, b :| a in ts && b in ts && b - a >= 50 * Clock.MINUTE;
      LastHourMembers(rows, now, keep, a);
      LastHourMembers(rows, now, keep, b);
      var i :| 0 <= i < |rows| && rows[i].ts == a && now - Clock.HOUR <= a <= now && keep(rows[i]);
      var j :| 0 <= j < |rows| && rows[j].ts == b && now - Clock.HOUR <= b <= now && keep(rows[j]);
      assert InLastHour(rows[i], now) && InLastHour(rows[j], now);
    }
    if Spans(rows, now, keep) {
      var i, j :| 0 <= i < |rows| && 0 <= j < |rows| && InLastHour(rows[i], now) && keep(rows[i]) &&
        InLastHour(rows[j], now) && keep(rows[j]) && rows[j].ts - rows[i].ts >= 50 * Clock.MINUTE;
      LastHourMembers(rows, now, keep, rows[i].ts);
      LastHourMembers(rows, now, keep, rows[j].ts);
    }
  }

  /** `has_hour_data` over the table, with `keep` as the query's
    * non-null filter: a raised query gives false and its message;
    * otherwise at least 30 accepted rows of the last hour, two of them at
    * least 50 minutes apart. */
  function HourData(table: Result<seq<Row>>, now: int, keep: Row -> bool): (r: HourReply)
    ensures table.Err? ==> r == HourReply(false, Some(table.error))
    ensures table.Ok? ==> r.error.None?
    ensures table.Ok? ==> (r.hasData <==> (|LastHour(table.value, now, keep)| >= MIN_ROWS && Spans(table.value, now, keep)))
  {
    match table
    case Err(e) => HourCheck(Err(e))
    case Ok(rows) =>
      SpansMeaning(rows, now, keep);
      HourCheck(Ok(LastHour(rows, now, keep)))
  }

  lemma {:induction false} LastHourAppend(rows: seq<Row>, extra: seq<Row>, now: int, keep: Row -> bool)
    ensures LastHour(rows + extra, now, keep) == LastHour(rows, now, keep) + LastHour(extra, now, keep)
  {
    if |rows| > 0 {
      assert (rows + extra)[1..] == rows[1..] + extra;
      LastHourAppend(rows[1..], extra, now, keep);
    } else {
      assert rows + extra == extra;
    }
  }

  lemma {:induction false} LastHourNone(extra: seq<Row>, now: int, keep: Row -> bool)
    requires forall i :: 0 <= i < |extra| ==> !keep(extra[i])
    ensures LastHour(extra, now, keep) == []
  {
    if |extra| > 0 {
      LastHourNone(extra[1..], now, keep);
    }
  }

  lemma {:induction false} LastHourKeepsAll(rows: seq<Row>, now: int, keep: Row -> bool)
    requires forall i :: 0 <= i < |rows| ==> InLastHour(rows[i], now) && keep(rows[i])
    ensures |LastHour(rows, now, keep)| == |rows|
  {
    if |rows| > 0 {
      LastHourKeepsAll(rows[1..], now, keep);
    }
  }

  /** Rows the filter rejects never change the verdict, wherever they sit
    * between the others. */
  lemma IgnoredRows(rows: seq<Row>, extra: seq<Row>, after: seq<Row>, now: int, keep: Row -> bool)
    requires forall i :: 0 <= i < |extra| ==> !keep(extra[i])
    ensures HourData(Ok(rows + extra + after), now, keep) == HourData(Ok(rows + after), now, keep)
  {
    LastHourAppend(rows + extra, after, now, keep);
    LastHourAppend(rows, extra, now, keep);
    LastHourAppend(rows, after, now, keep);
    LastHourNone(extra, now, keep);
    assert LastHour(rows + extra + after, now, keep) == LastHour(rows + after, now, keep);
  }

  /** `selected_date` for the stats endpoints: parsed when present and
    * well formed, the current time otherwise. */
  function SelectedDateOrNow(selected: Option<string>, now: int, parseDate: string -> Option<int>): (r: int)
    ensures selected.Some? && selected.value != "" && parseDate(selected.value).Some? ==> r == parseDate(selected.value).value
    ensures selected.None? || selected.value == "" || parseDate(selected.value).None? ==> r == now
  {
    if selected.Some? && selected.value != "" then
      match parseDate(selected.value)
      case Some(d) => d
      case None => now
    else now
  }
}
