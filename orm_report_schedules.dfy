/** The `ups_report_schedules` table and how a schedule is shown to clients. */
module OrmReportSchedules {
  import opened Wrappers
  import opened Text
  import opened Json

  datatype ReportSchedule = ReportSchedule(
    id: Option<int>,
    time: string,
    days: string,
    reports: string,
    email: Option<string>,
    mailConfigId: Option<int>,
    periodType: string,
    fromDate: Option<int>,
    toDate: Option<int>,
    enabled: bool,
    createdAt: Option<int>,
    updatedAt: Option<int>)

  /** A schedule built from the column defaults. */
  function NewSchedule(time: string, days: string, reports: string): (r: ReportSchedule)
    ensures r.periodType == "daily" && r.enabled
  {
    ReportSchedule(None, time, days, reports, None, None, "daily", None, None, true, None, None)
  }

  /** The tokens kept by the de-duplication: non-empty ones, each the first
    * time it occurs. */
  function Dedup(tokens: seq<string>): (r: seq<string>)
  {
    if |tokens| == 0 then []
    else
      var prev := Dedup(tokens[..|tokens| - 1]);
      var t := tokens[|tokens| - 1];
      if t != "" && t !in prev then prev + [t] else prev
  }

  /** The position of the first occurrence of `x`. */
  function FirstIndex(tokens: seq<string>, x: string): (i: nat)
    requires x in tokens
    ensures i < |tokens| && tokens[i] == x && x !in tokens[..i]
  {
    if tokens[0] == x then 0 else 1 + FirstIndex(tokens[1..], x)
  }

  lemma FirstIndexInPrefix(tokens: seq<string>, n: nat, x: string)
    requires n <= |tokens| && x in tokens[..n]
    ensures FirstIndex(tokens, x) == FirstIndex(tokens[..n], x)
  {
    var i := FirstIndex(tokens[..n], x);
    var j := FirstIndex(tokens, x);
    assert tokens[..n][..i] == tokens[..i];
  }

  /** The kept tokens are exactly the non-empty ones, without repeats, in
    * order of first occurrence. */
  lemma {:induction false} DedupSpec(tokens: seq<string>)
    ensures forall x :: x in Dedup(tokens) <==> x in tokens && x != ""
    ensures forall i, j :: 0 <= i < j < |Dedup(tokens)| ==> Dedup(tokens)[i] != Dedup(tokens)[j]
    ensures forall i, j :: 0 <= i < j < |Dedup(tokens)| ==>
      FirstIndex(tokens, Dedup(tokens)[i]) < FirstIndex(tokens, Dedup(tokens)[j])
  {
    if |tokens| > 0 {
      var n := |tokens| - 1;
      var init := tokens[..n];
      DedupSpec(init);
      var prev := Dedup(init);
      var t := tokens[n];
      assert tokens == init + [t];
      forall x | x in init
        ensures FirstIndex(tokens, x) == FirstIndex(init, x)
      {
        FirstIndexInPrefix(tokens, n, x);
      }
      if t != "" && t !in prev {
        assert t !in init;
        assert FirstIndex(tokens, t) == n;
        forall i | 0 <= i < |prev|
          ensures FirstIndex(tokens, prev[i]) < FirstIndex(tokens, t)
        {
          assert prev[i] in init;
        }
      }
    }
  }

  /** The de-duplication loop of `to_dict`; an empty column gives no reports. */
  method Reports(s: ReportSchedule) returns (reports: seq<string>)
    ensures reports == if s.reports == "" then [] else Dedup(Split(s.reports, ','))
  {
    reports := [];
    if s.reports == "" {
      return;
    }
    var tokens := Split(s.reports, ',');
    var i := 0;
    while i < |tokens|
      invariant 0 <= i <= |tokens|
      invariant reports == Dedup(tokens[..i])
    {
      assert tokens[..i + 1][..i] == tokens[..i];
      var report := tokens[i];
      if report != "" && report !in reports {
        reports := reports + [report];
      }
      i := i + 1;
    }
    assert tokens[..i] == tokens;
  }

  /** The whole-number tokens of a list, in order. */
  function DigitTokens(tokens: seq<string>): (r: seq<int>)
    ensures |r| <= |tokens|
    ensures forall k :: 0 <= k < |r| ==> r[k] >= 0
  {
    if |tokens| == 0 then []
    else
      var prev := DigitTokens(tokens[..|tokens| - 1]);
      var t := tokens[|tokens| - 1];
      if IsDigits(t) then prev + [DigitsValue(t)] else prev
  }

  /** `days`: the comma-separated tokens made of digits only. */
  function Days(days: string): seq<int>
  {
    DigitTokens(Split(days, ','))
  }

  /** "*" (every day) has no digit token, so the list comes out empty. */
  lemma StarHasNoDays()
    ensures Days("*") == []
  {
    var tokens := Split("*", ',');
    assert tokens == ["*"] by {
      assert forall k :: 0 <= k < |tokens| ==> ',' !in tokens[k];
    }
    assert !IsDigit('*');
  }

  /** A single day number reads back as itself. */
  lemma SingleDayReadsBack(n: nat)
    ensures Days(NatToString(n)) == [n]
  {
    var s := NatToString(n);
    assert ',' !in s by {
      forall k | 0 <= k < |s| ensures s[k] != ',' {
        assert IsDigit(s[k]);
      }
    }
    var tokens := Split(s, ',');
    assert tokens == [s];
    NatToStringRoundTrip(n);
  }

  /** `to_dict` with the report list already de-duplicated. */
  function ToDict(s: ReportSchedule, reports: seq<string>): (r: Json)
    ensures r.Obj? && |r.fields| == 12
    ensures r.fields[7].1 == Null <==> s.fromDate.None?
    ensures r.fields[8].1 == Null <==> s.toDate.None?
    ensures r.fields[10].1 == Null <==> s.createdAt.None?
    ensures r.fields[11].1 == Null <==> s.updatedAt.None?
  {
    Obj([("id", OptInt(s.id)),
         ("time", Str(s.time)),
         ("days", List(seq(|Days(s.days)|, k requires 0 <= k < |Days(s.days)| => Int(Days(s.days)[k])))),
         ("reports", List(seq(|reports|, k requires 0 <= k < |reports| => Str(reports[k])))),
         ("email", OptStr(s.email)),
         ("mail_config_id", OptInt(s.mailConfigId)),
         ("period_type", Str(s.periodType)),
         ("from_date", OptInt(s.fromDate)),
         ("to_date", OptInt(s.toDate)),
         ("enabled", Bool(s.enabled)),
         ("created_at", OptInt(s.createdAt)),
         ("updated_at", OptInt(s.updatedAt))])
  }
}
