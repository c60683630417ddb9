/** The script `upsmon` runs on every UPS event: it reads the event from its
  * arguments, records it in the events table (closing whatever was still
  * open for that UPS) and hands it to the email, ntfy and webhook channels. */
module UpsNotifier {
  import opened Wrappers
  import opened Text
  import opened Dicts
  import opened Clock
  import opened Session
  import opened Json
  import opened OrmEvents
  import opened OrmNotification
  import opened OrmNtfy

  // ---------------------------------------------------------------------
  // Arguments
  // ---------------------------------------------------------------------

  /** The length of the run of whitespace (`\s`) starting at `i`. */
  function SpaceRun(s: string, i: nat): (n: nat)
    requires i <= |s|
    ensures i + n <= |s|
    ensures forall k :: i <= k < i + n ==> IsSpace(s[k])
    ensures i + n == |s| || !IsSpace(s[i + n])
    decreases |s| - i
  {
    if i < |s| && IsSpace(s[i]) then 1 + SpaceRun(s, i + 1) else 0
  }

  /** The length of the run of non-whitespace (`[^\s]`) starting at `i`. */
  function WordRun(s: string, i: nat): (n: nat)
    requires i <= |s|
    ensures i + n <= |s|
    ensures forall k :: i <= k < i + n ==> !IsSpace(s[k])
    ensures i + n == |s| || IsSpace(s[i + n])
    decreases |s| - i
  {
    if i < |s| && !IsSpace(s[i]) then 1 + WordRun(s, i + 1) else 0
  }

  /** `w1\s+w2\s+...` matches at position `i`. Each word starts with a
    * non-space character, so `\s+` can only take the whole run of spaces. */
  predicate PhraseAt(s: string, i: nat, words: seq<string>)
    requires i <= |s|
    decreases |words|
  {
    |words| > 0 && OccursAt(s, words[0], i) &&
    (|words| == 1 ||
     (var j := i + |words[0]|;
      SpaceRun(s, j) > 0 && PhraseAt(s, j + SpaceRun(s, j), words[1..])))
  }

  /** `.*` followed by the phrase matches at `i`: `.` crosses anything but a
    * newline. */
  predicate PhraseAfter(s: string, i: nat, words: seq<string>)
    requires i <= |s|
    decreases |s| - i
  {
    PhraseAt(s, i, words) || (i < |s| && s[i] != '\n' && PhraseAfter(s, i + 1, words))
  }

  /** The length the greedy group `([^\s]+)` at `p` settles on when at most
    * `k` characters are available to it: the longest that lets the rest of
    * the pattern match. */
  function GroupLength(s: string, p: nat, k: nat, words: seq<string>): (r: Option<nat>)
    requires p + k <= |s|
    ensures r.Some? ==> 1 <= r.value <= k && PhraseAfter(s, p + r.value, words)
    ensures r.Some? ==> forall q :: p + r.value < q <= p + k ==> !PhraseAfter(s, q, words)
    ensures r.None? ==> forall q :: p < q <= p + k ==> !PhraseAfter(s, q, words)
    decreases k
  {
    if k == 0 then None
    else if PhraseAfter(s, p + k, words) then Some(k)
    else GroupLength(s, p, k - 1, words)
  }

  /** `re.search(r"^UPS\s+([^\s]+).*<phrase>", s)`, giving group 1 on a match. */
  function MatchName(s: string, words: seq<string>): (r: Option<string>)
    ensures r.Some? ==> StartsWith(s, "UPS") && SpaceRun(s, 3) > 0
    ensures r.Some? ==> |r.value| > 0 && NoSpace(r.value)
    ensures r.Some? ==> (3 + SpaceRun(s, 3) + |r.value| <= |s|
      && r.value == s[3 + SpaceRun(s, 3)..3 + SpaceRun(s, 3) + |r.value|])
  {
    if !StartsWith(s, "UPS") then None
    else
      var n := SpaceRun(s, 3);
      if n == 0 then None
      else
        var p := 3 + n;
        match GroupLength(s, p, WordRun(s, p), words)
        case None => None
        case Some(k) => Some(s[p..p + k])
  }

  /** The free-text patterns in the order they are tried, each with the
    * event type it stands for. */
  const FREE_TEXT_PATTERNS: seq<(seq<string>, string)> := [
    (["on", "battery"], "ONBATT"),
    (["on", "line", "power"], "ONLINE"),
    (["low", "battery"], "LOWBATT"),
    (["communication", "restored"], "COMMOK"),
    (["communication", "lost"], "COMMBAD"),
    (["forced", "shutdown"], "FSD"),
    (["battery", "needs", "replacing"], "REPLBATT"),
    (["shutdown", "in", "progress"], "SHUTDOWN"),
    (["no", "communication"], "NOCOMM"),
    (["parent", "process"], "NOPARENT")]

  /** The first pattern from index `i` on that matches decides the result. */
  function FirstPattern(s: string, i: nat): (r: (Option<string>, Option<string>))
    requires i <= |FREE_TEXT_PATTERNS|
    ensures r.0.Some? <==> r.1.Some?
    ensures r.1.Some? ==> exists j :: i <= j < |FREE_TEXT_PATTERNS| && r.1.value == FREE_TEXT_PATTERNS[j].1
    decreases |FREE_TEXT_PATTERNS| - i
  {
    if i == |FREE_TEXT_PATTERNS| then (None, None)
    else match MatchName(s, FREE_TEXT_PATTERNS[i].0)
      case Some(name) => (Some(name), Some(FREE_TEXT_PATTERNS[i].1))
      case None => FirstPattern(s, i + 1)
  }

  /** `parse_input_args`: the UPS name and event type, or `(None, None)`. */
  function ParseInputArgs(args: seq<string>): (r: (Option<string>, Option<string>))
    ensures r.0.Some? <==> r.1.Some?
  {
    if |args| < 1 then (None, None)
    else if |args| == 1 && StartsWith(args[0], "UPS ") then FirstPattern(args[0], 0)
    else if |args| >= 2 then (Some(args[0]), Some(args[1]))
    else (None, None)
  }

  /** The two argument forms: a `name TYPE` pair (extra arguments ignored),
    * or one free-text argument; anything else yields nothing. */
  lemma ParseInputArgsForms(args: seq<string>)
    ensures |args| == 0 ==> ParseInputArgs(args) == (None, None)
    ensures |args| >= 2 ==> ParseInputArgs(args) == (Some(args[0]), Some(args[1]))
    ensures |args| == 1 && !StartsWith(args[0], "UPS ") ==> ParseInputArgs(args) == (None, None)
    ensures |args| == 1 && ParseInputArgs(args).1.Some? ==>
      ParseInputArgs(args).1.value in {"ONBATT", "ONLINE", "LOWBATT", "COMMOK", "COMMBAD", "FSD", "REPLBATT", "SHUTDOWN", "NOCOMM", "NOPARENT"}
  {
    if |args| == 1 && ParseInputArgs(args).1.Some? {
      var j :| 0 <= j < |FREE_TEXT_PATTERNS| && ParseInputArgs(args).1.value == FREE_TEXT_PATTERNS[j].1;
    }
  }

  /** The first pattern that matches wins: the later ones are not consulted. */
  lemma {:induction false} FirstMatchWins(s: string, i: nat)
    requires i < |FREE_TEXT_PATTERNS|
    requires MatchName(s, FREE_TEXT_PATTERNS[i].0).Some?
    requires forall j :: 0 <= j < i ==> MatchName(s, FREE_TEXT_PATTERNS[j].0).None?
    ensures ParseInputArgs([s]) == (MatchName(s, FREE_TEXT_PATTERNS[i].0), Some(FREE_TEXT_PATTERNS[i].1))
      || !StartsWith(s, "UPS ")
  {
    FirstMatchFrom(s, 0, i);
  }

  lemma {:induction false} FirstMatchFrom(s: string, k: nat, i: nat)
    requires k <= i < |FREE_TEXT_PATTERNS|
    requires MatchName(s, FREE_TEXT_PATTERNS[i].0).Some?
    requires forall j :: k <= j < i ==> MatchName(s, FREE_TEXT_PATTERNS[j].0).None?
    ensures FirstPattern(s, k) == (MatchName(s, FREE_TEXT_PATTERNS[i].0), Some(FREE_TEXT_PATTERNS[i].1))
    decreases i - k
  {
    var pat := FREE_TEXT_PATTERNS[k];
    if k < i {
      assert MatchName(s, pat.0).None?;
      FirstMatchFrom(s, k + 1, i);
    } else {
      var m := MatchName(s, pat.0);
      assert FirstPattern(s, k) == (m, Some(pat.1)) by {
        assert m.Some?;
      }
    }
  }

  /** Text that matches no pattern yields nothing. */
  lemma {:induction false} NoMatchGivesNothing(s: string, k: nat)
    requires k <= |FREE_TEXT_PATTERNS|
    requires forall j :: k <= j < |FREE_TEXT_PATTERNS| ==> MatchName(s, FREE_TEXT_PATTERNS[j].0).None?
    ensures FirstPattern(s, k) == (None, None)
    decreases |FREE_TEXT_PATTERNS| - k
  {
    if k < |FREE_TEXT_PATTERNS| {
      NoMatchGivesNothing(s, k + 1);
    }
  }

  /** Text matching "on battery" is an ONBATT event even when it also
    * mentions a low battery. */
  lemma OnBatteryTakesPrecedence(s: string)
    requires StartsWith(s, "UPS ")
    requires MatchName(s, ["on", "battery"]).Some?
    ensures ParseInputArgs([s]) == (MatchName(s, ["on", "battery"]), Some("ONBATT"))
  {
    FirstMatchWins(s, 0);
  }

  // ---------------------------------------------------------------------
  // The events table
  // ---------------------------------------------------------------------

  /** The stored columns of each row, in table order. */
  function ViewsOf(es: seq<UPSEvent>): (r: seq<EventView>)
    reads es
    ensures |r| == |es|
    ensures forall i :: 0 <= i < |es| ==> r[i] == es[i].View()
  {
    if |es| == 0 then [] else [es[0].View()] + ViewsOf(es[1..])
  }

  lemma ViewsOfSnoc(es: seq<UPSEvent>, e: UPSEvent)
    ensures ViewsOf(es + [e]) == ViewsOf(es) + [e.View()]
  {
    assert forall i :: 0 <= i < |es| ==> (es + [e])[i] == es[i];
  }

  predicate OpenFor(v: EventView, ups: string)
  {
    v.ups == ups && v.end.None?
  }

  /** The number of open events of `ups`. */
  function OpenCount(vs: seq<EventView>, ups: string): nat
  {
    if |vs| == 0 then 0
    else OpenCount(vs[..|vs| - 1], ups) + (if OpenFor(vs[|vs| - 1], ups) then 1 else 0)
  }

  function CloseOne(v: EventView, ups: string, t: int): EventView
  {
    if OpenFor(v, ups) then v.(end := Some(t)) else v
  }

  /** Every open event of `ups` ends at `t`; every other row is left as it was. */
  function CloseOpen(vs: seq<EventView>, ups: string, t: int): (r: seq<EventView>)
    ensures |r| == |vs|
    ensures forall i :: 0 <= i < |vs| ==> r[i] == CloseOne(vs[i], ups, t)
  {
    seq(|vs|, i requires 0 <= i < |vs| => CloseOne(vs[i], ups, t))
  }

  /** After closing, no event of that UPS is open, and the open events of
    * other UPSes are untouched. */
  lemma {:induction false} CloseOpenCounts(vs: seq<EventView>, ups: string, t: int, other: string)
    requires other != ups
    ensures OpenCount(CloseOpen(vs, ups, t), ups) == 0
    ensures OpenCount(CloseOpen(vs, ups, t), other) == OpenCount(vs, other)
  {
    if |vs| > 0 {
      var n := |vs| - 1;
      CloseOpenCounts(vs[..n], ups, t, other);
      assert CloseOpen(vs, ups, t)[..n] == CloseOpen(vs[..n], ups, t);
    }
  }

  /** The row `store_event_in_database` inserts. */
  function NewEvent(ups: string, kind: string, now: int, sourceIp: Option<string>): (v: EventView)
    ensures v.ts == Some(now) && v.begin == Some(now) && v.end.None? && !v.acknowledged
  {
    EventView(Some(now), Some(now), None, ups, kind, "UPS " + ups + " event: " + kind, sourceIp, false)
  }

  /** The row `store_event_in_database` adds, started and stamped `now`. */
  method NewEventRow(ups: string, kind: string, now: int, sourceIp: Option<string>) returns (e: UPSEvent)
    ensures fresh(e) && e.View() == NewEvent(ups, kind, now, sourceIp)
  {
    e := new UPSEvent(Some(now), Some(now), ups, kind, "UPS " + ups + " event: " + kind, sourceIp, Some(false), now);
  }

  /** The table after `store_event_in_database`: the open events of `ups`
    * closed when that commit succeeded, then the new row when its commit
    * succeeded. */
  function Stored(vs: seq<EventView>, ups: string, kind: string, now: int, sourceIp: Option<string>,
                  closeOk: bool, insertOk: bool): seq<EventView>
  {
    (if closeOk then CloseOpen(vs, ups, now) else vs)
    + (if insertOk then [NewEvent(ups, kind, now, sourceIp)] else [])
  }

  lemma OpenCountSnoc(vs: seq<EventView>, v: EventView, ups: string)
    ensures OpenCount(vs + [v], ups) == OpenCount(vs, ups) + (if OpenFor(v, ups) then 1 else 0)
  {
    assert (vs + [v])[..|vs|] == vs;
  }

  /** The number of open events of `ups` among the first `i` rows. */
  function OpenCountBelow(vs: seq<EventView>, i: nat, ups: string): nat
    requires i <= |vs|
  {
    if i == 0 then 0 else OpenCountBelow(vs, i - 1, ups) + (if OpenFor(vs[i - 1], ups) then 1 else 0)
  }

  lemma {:induction false} OpenCountBelowAll(vs: seq<EventView>, ups: string)
    ensures OpenCountBelow(vs, |vs|, ups) == OpenCount(vs, ups)
  {
    if |vs| > 0 {
      var n := |vs| - 1;
      OpenCountBelowAll(vs[..n], ups);
      OpenCountBelowPrefix(vs, n, n, ups);
    }
  }

  lemma {:induction false} OpenCountBelowPrefix(vs: seq<EventView>, n: nat, i: nat, ups: string)
    requires i <= n <= |vs|
    ensures OpenCountBelow(vs[..n], i, ups) == OpenCountBelow(vs, i, ups)
  {
    if i > 0 {
      OpenCountBelowPrefix(vs, n, i - 1, ups);
      assert vs[..n][i - 1] == vs[i - 1];
    }
  }

  /** When both commits succeed the UPS has exactly one open event: the new
    * one; the other UPSes keep their open events. */
  lemma StoredLeavesOneOpen(vs: seq<EventView>, ups: string, kind: string, now: int, sourceIp: Option<string>, other: string)
    requires other != ups
    ensures OpenCount(Stored(vs, ups, kind, now, sourceIp, true, true), ups) == 1
    ensures OpenCount(Stored(vs, ups, kind, now, sourceIp, true, true), other) == OpenCount(vs, other)
  {
    CloseOpenCounts(vs, ups, now, other);
    OpenCountSnoc(CloseOpen(vs, ups, now), NewEvent(ups, kind, now, sourceIp), ups);
    OpenCountSnoc(CloseOpen(vs, ups, now), NewEvent(ups, kind, now, sourceIp), other);
  }

  /** The close-then-open protocol keeps at most one open event per UPS. */
  lemma AtMostOneOpenKept(vs: seq<EventView>, ups: string, kind: string, now: int, sourceIp: Option<string>, insertOk: bool)
    requires forall u :: OpenCount(vs, u) <= 1
    ensures forall u :: OpenCount(Stored(vs, ups, kind, now, sourceIp, true, insertOk), u) <= 1
  {
    forall u
      ensures OpenCount(Stored(vs, ups, kind, now, sourceIp, true, insertOk), u) <= 1
    {
      var other := if u == ups then ups + "'" else u;
      CloseOpenCounts(vs, ups, now, other);
      if insertOk {
        OpenCountSnoc(CloseOpen(vs, ups, now), NewEvent(ups, kind, now, sourceIp), u);
      } else {
        assert Stored(vs, ups, kind, now, sourceIp, true, insertOk) == CloseOpen(vs, ups, now);
      }
    }
  }

  /** One step of `close_previous_events`: end `e` at `now` if it is an open
    * event of `ups` and the change is to be kept. */
  method CloseIfOpen(e: UPSEvent, ups: string, now: int, keep: bool) returns (wasOpen: bool)
    modifies e
    ensures wasOpen <==> OpenFor(old(e.View()), ups)
    ensures e.View() == if keep then CloseOne(old(e.View()), ups, now) else old(e.View())
  {
    wasOpen := e.upsName == ups && e.timestampTzEnd.None?;
    if wasOpen && keep {
      e.timestampTzEnd := Some(now);
    }
  }

  /** The `ups_events` table, as the event objects it holds. */
  class EventTable {
    var rows: seq<UPSEvent>

    /** Each row is a distinct object. */
    predicate Valid()
      reads this
    {
      forall i, j :: 0 <= i < |rows| && 0 <= j < |rows| && i != j ==> rows[i] != rows[j]
    }

    function Views(): seq<EventView>
      reads this, rows
    {
      ViewsOf(rows)
    }

    /** One iteration of `close_previous_events`: row `i` is ended at `now`
      * if it is an open event of `ups` and the change is kept; no other row
      * changes. */
    method Visit(i: nat, ups: string, now: int, keep: bool) returns (wasOpen: bool)
      requires Valid() && i < |rows|
      modifies rows[i]
      ensures wasOpen <==> OpenFor(old(rows[i].View()), ups)
      ensures rows[i].View() == if keep then CloseOne(old(rows[i].View()), ups, now) else old(rows[i].View())
      ensures forall k :: 0 <= k < |rows| && k != i ==> rows[k].View() == old(rows[k].View())
    {
      var e := rows[i];
      wasOpen := CloseIfOpen(e, ups, now, keep);
      forall k | 0 <= k < |rows| && k != i
        ensures rows[k].View() == old(rows[k].View())
      {
        assert rows[k] != e;
      }
    }

    /** The loop of `close_previous_events`: every open event of `ups` is
      * visited and counted, and ended at `now` when `keep` holds. */
    method CloseEach(ups: string, now: int, keep: bool) returns (count: nat)
      requires Valid()
      modifies rows
      ensures forall k :: 0 <= k < |rows| ==>
        rows[k].View() == if keep then CloseOne(old(rows[k].View()), ups, now) else old(rows[k].View())
      ensures count == OpenCount(old(Views()), ups)
    {
      ghost var before := Views();
      count := 0;
      var i := 0;
      while i < |rows|
        invariant 0 <= i <= |rows|
        invariant forall k :: 0 <= k < |rows| ==>
          rows[k].View() == if keep && k < i then CloseOne(before[k], ups, now) else before[k]
        invariant count == OpenCountBelow(before, i, ups)
      {
        var wasOpen := Visit(i, ups, now, keep);
        if wasOpen {
          count := count + 1;
        }
        i := i + 1;
      }
      OpenCountBelowAll(before, ups);
    }

    /** `close_previous_events`: end every open event of `ups` at `now` and
      * report how many there were; when the commit fails nothing is kept
      * and 0 is reported. */
    method ClosePreviousEvents(ups: string, now: int, commit: CommitResult) returns (count: nat)
      requires Valid()
      modifies rows
      ensures rows == old(rows)
      ensures Views() == if commit.None? then CloseOpen(old(Views()), ups, now) else old(Views())
      ensures count == if commit.Some? then 0 else OpenCount(old(Views()), ups)
    {
      ghost var before := Views();
      count := CloseEach(ups, now, commit.None?);
      ghost var want := if commit.None? then CloseOpen(before, ups, now) else before;
      assert forall k :: 0 <= k < |rows| ==> Views()[k] == want[k];
      if count > 0 && commit.Some? {
        count := 0;
      }
    }

    /** `store_event_in_database`: close the open events of `ups`, then insert
      * the new event stamped `now`; the result is whether the insert was
      * committed. */
    method StoreEventInDatabase(ups: string, kind: string, now: int, sourceIp: Option<string>,
                                closeCommit: CommitResult, insertCommit: CommitResult) returns (ok: bool)
      requires Valid()
      modifies this, rows
      ensures Valid()
      ensures ok <==> insertCommit.None?
      ensures Views() == Stored(old(Views()), ups, kind, now, sourceIp, closeCommit.None?, ok)
    {
      var closed := ClosePreviousEvents(ups, now, closeCommit);
      if insertCommit.Some? {
        return false;
      }
      AddEvent(ups, kind, now, sourceIp);
      ok := true;
    }

    /** `session.add(UPSEvent(...))`: a new open row, started and stamped
      * `now`, goes to the end of the table. */
    method AddEvent(ups: string, kind: string, now: int, sourceIp: Option<string>)
      requires Valid()
      modifies this
      ensures Valid()
      ensures Views() == old(Views()) + [NewEvent(ups, kind, now, sourceIp)]
    {
      var e := NewEventRow(ups, kind, now, sourceIp);
      assert e !in rows;
      Append(e);
    }

    /** `session.add(event)`: the new row goes to the end of the table. */
    method Append(e: UPSEvent)
      requires Valid() && e !in rows
      modifies this
      ensures Valid()
      ensures rows == old(rows) + [e]
      ensures Views() == old(Views()) + [e.View()]
    {
      ViewsOfSnoc(rows, e);
      rows := rows + [e];
    }
  }

  // ---------------------------------------------------------------------
  // Durations reported with ONLINE and COMMOK events
  // ---------------------------------------------------------------------

  /** `int(seconds / 60)`: whole minutes, truncated toward zero. */
  function WholeMinutes(seconds: int): int
  {
    TruncDiv(seconds, 60)
  }

  function OpenOfKind(ups: string, kind: string): EventView -> bool
  {
    (v: EventView) => v.ups == ups && v.kind == kind && v.end.None?
  }

  function ClosedOfKind(ups: string, kind: string): EventView -> bool
  {
    (v: EventView) => v.ups == ups && v.kind == kind && v.end.Some?
  }

  /** The event ended less than an hour before `now` and has a start time. */
  predicate RecentlyEnded(v: EventView, now: int)
  {
    v.end.Some? && now - v.end.value < 3600 && v.ts.Some?
  }

  /** The duration of the first candidate that ended within the hour. */
  /** The position of the first event that ended recently. */
  function FirstRecentIndex(cs: seq<EventView>, now: int): (r: Option<nat>)
    ensures r.None? <==> forall i :: 0 <= i < |cs| ==> !RecentlyEnded(cs[i], now)
    ensures r.Some? ==> r.value < |cs| && RecentlyEnded(cs[r.value], now)
    ensures r.Some? ==> forall j :: 0 <= j < r.value ==> !RecentlyEnded(cs[j], now)
  {
    if |cs| == 0 then None
    else if RecentlyEnded(cs[0], now) then Some(0)
    else
      var r := FirstRecentIndex(cs[1..], now);
      if r.Some? then Some(r.value + 1) else None
  }

  /** The minutes on battery of the first event that ended recently. */
  function FirstRecent(cs: seq<EventView>, now: int): (r: Option<int>)
    ensures r.None? <==> forall i :: 0 <= i < |cs| ==> !RecentlyEnded(cs[i], now)
    ensures r.Some? ==> exists i :: (0 <= i < |cs| && RecentlyEnded(cs[i], now)
      && (forall j :: 0 <= j < i ==> !RecentlyEnded(cs[j], now))
      && r.value == WholeMinutes(cs[i].end.value - cs[i].ts.value))
  {
    match FirstRecentIndex(cs, now)
    case None => None
    case Some(i) => Some(WholeMinutes(cs[i].end.value - cs[i].ts.value))
  }

  /** The closed-event path: among the five most recent closed ONBATT
    * events, the first that ended less than an hour ago. */
  function ClosedBatteryMinutes(vs: seq<EventView>, ups: string, now: int): Option<int>
  {
    var cs := ByStampDesc(Filter(vs, ClosedOfKind(ups, "ONBATT")));
    FirstRecent(cs[..if |cs| < 5 then |cs| else 5], now)
  }

  /** How long an ONLINE event says the UPS ran on battery, in minutes:
    * from the latest open ONBATT event if it has a start time, otherwise
    * from the closed ones; `None` keeps the default "0 min". */
  function OnlineBatteryMinutes(vs: seq<EventView>, ups: string, now: int): Option<int>
  {
    match Latest(vs, OpenOfKind(ups, "ONBATT"))
    case Some(o) =>
      if o.ts.Some? then Some(WholeMinutes(now - o.ts.value)) else ClosedBatteryMinutes(vs, ups, now)
    case None => ClosedBatteryMinutes(vs, ups, now)
  }

  /** With an open ONBATT event the duration runs from the latest one's start. */
  lemma OnlineFromOpenEvent(vs: seq<EventView>, ups: string, now: int, o: EventView)
    requires o in vs && OpenOfKind(ups, "ONBATT")(o) && o.ts.Some?
    requires forall v :: v in vs && OpenOfKind(ups, "ONBATT")(v) ==> AtLeast(o, v)
    ensures OnlineBatteryMinutes(vs, ups, now) == Some(WholeMinutes(now - o.ts.value))
  {
    var r := Latest(vs, OpenOfKind(ups, "ONBATT"));
    assert r.Some?;
    assert AtLeast(r.value, o) && AtLeast(o, r.value);
  }

  /** No event of `ups` is open after it has been closed and an event of
    * another kind inserted. */
  lemma NoOpenOfKindAfterStore(vs: seq<EventView>, ups: string, kind: string, event: string, now: int,
                               sourceIp: Option<string>, insertOk: bool)
    requires kind != event
    ensures Latest(Stored(vs, ups, event, now, sourceIp, true, insertOk), OpenOfKind(ups, kind)).None?
  {
    var after := Stored(vs, ups, event, now, sourceIp, true, insertOk);
    forall v | v in after
      ensures !OpenOfKind(ups, kind)(v)
    {
      var i :| 0 <= i < |after| && after[i] == v;
      if i < |vs| {
        assert v == CloseOne(vs[i], ups, now);
      }
    }
  }

  /** By the time an ONLINE notification is prepared the ONBATT event has
    * already been closed, so the duration always comes from the closed path. */
  lemma OnlineAfterStoreUsesClosed(vs: seq<EventView>, ups: string, now: int, sourceIp: Option<string>, later: int)
    ensures OnlineBatteryMinutes(Stored(vs, ups, "ONLINE", now, sourceIp, true, true), ups, later)
      == ClosedBatteryMinutes(Stored(vs, ups, "ONLINE", now, sourceIp, true, true), ups, later)
  {
    NoOpenOfKindAfterStore(vs, ups, "ONBATT", "ONLINE", now, sourceIp, true);
  }

  /** The COMMOK outage duration as written: minutes since the latest open
    * COMMBAD event, looked up after the COMMOK event has been stored. */
  function CommDownMinutes(vs: seq<EventView>, ups: string, now: int): Option<int>
  {
    MinutesSince(StartOf(Latest(vs, OpenOfKind(ups, "COMMBAD"))), now)
  }

  /** The start time of the event found, if there is one and it has one. */
  function StartOf(found: Option<EventView>): Option<int>
  {
    if found.Some? then found.value.ts else None
  }

  /** Whole minutes from `start`, if known, to `t`. */
  function MinutesSince(start: Option<int>, t: int): Option<int>
  {
    if start.Some? then Some(WholeMinutes(t - start.value)) else None
  }

  /** Storing COMMOK has already closed every COMMBAD event of the UPS, so
    * the lookup never finds one and the notification always says "0 min". */
  lemma CommOkDurationNeverFound(vs: seq<EventView>, ups: string, now: int, sourceIp: Option<string>, later: int)
    ensures CommDownMinutes(Stored(vs, ups, "COMMOK", now, sourceIp, true, true), ups, later).None?
  {
    NoOpenOfKindAfterStore(vs, ups, "COMMBAD", "COMMOK", now, sourceIp, true);
  }

  function ClosedAt(ups: string, kind: string, t: int): EventView -> bool
  {
    (v: EventView) => v.ups == ups && v.kind == kind && v.end == Some(t)
  }

  /** The outage duration as intended: the COMMBAD event that storing the
    * COMMOK event closed at `t`, from its start to its end. */
  function CommOutageMinutes(vs: seq<EventView>, ups: string, t: int): Option<int>
  {
    MinutesSince(StartOf(Latest(vs, ClosedAt(ups, "COMMBAD", t))), t)
  }

  /** Row by row, what storing a COMMOK event does to the COMMBAD events of
    * the same UPS when no stored event ends at or after `now`. */
  lemma CommOkStoreRows(vs: seq<EventView>, ups: string, now: int, sourceIp: Option<string>)
    requires forall v :: v in vs && v.end.Some? ==> v.end.value < now
    ensures |Stored(vs, ups, "COMMOK", now, sourceIp, true, true)| == |vs| + 1
    ensures !ClosedAt(ups, "COMMBAD", now)(Stored(vs, ups, "COMMOK", now, sourceIp, true, true)[|vs|])
    ensures forall i :: 0 <= i < |vs| ==>
      (ClosedAt(ups, "COMMBAD", now)(Stored(vs, ups, "COMMOK", now, sourceIp, true, true)[i]) <==>
       OpenOfKind(ups, "COMMBAD")(vs[i]))
    ensures forall i :: 0 <= i < |vs| ==> Stored(vs, ups, "COMMOK", now, sourceIp, true, true)[i].ts == vs[i].ts
  {
    var after := Stored(vs, ups, "COMMOK", now, sourceIp, true, true);
    forall i | 0 <= i < |vs|
      ensures ClosedAt(ups, "COMMBAD", now)(after[i]) <==> OpenOfKind(ups, "COMMBAD")(vs[i])
      ensures after[i].ts == vs[i].ts
    {
      assert after[i] == CloseOne(vs[i], ups, now);
      assert vs[i] in vs;
    }
  }

  /** An open COMMBAD event before the store is a COMMBAD event closed at
    * `now` after it. */
  lemma CommOutageFound(vs: seq<EventView>, ups: string, now: int, sourceIp: Option<string>)
    requires forall v :: v in vs && v.end.Some? ==> v.end.value < now
    ensures Latest(vs, OpenOfKind(ups, "COMMBAD")).Some? ==>
      Latest(Stored(vs, ups, "COMMOK", now, sourceIp, true, true), ClosedAt(ups, "COMMBAD", now)).Some?
  {
    var after := Stored(vs, ups, "COMMOK", now, sourceIp, true, true);
    var b := Latest(vs, OpenOfKind(ups, "COMMBAD"));
    if b.Some? {
      CommOkStoreRows(vs, ups, now, sourceIp);
      var jb :| 0 <= jb < |vs| && vs[jb] == b.value;
      assert after[jb] in after;
    }
  }

  /** Two picks that each come no later than the other's counterpart carry
    * the same timestamp. */
  lemma MutuallyLatest(o: EventView, x: EventView, c: EventView, y: EventView)
    requires x.ts == c.ts && y.ts == o.ts
    requires AtLeast(o, x) && AtLeast(c, y)
    ensures c.ts == o.ts
  {
  }

  /** The COMMBAD event closed at `now` that the lookup picks carries the
    * start time of the latest COMMBAD event open before the store. */
  lemma CommOutageSameStart(vs: seq<EventView>, ups: string, now: int, sourceIp: Option<string>)
    requires forall v :: v in vs && v.end.Some? ==> v.end.value < now
    requires Latest(Stored(vs, ups, "COMMOK", now, sourceIp, true, true), ClosedAt(ups, "COMMBAD", now)).Some?
    ensures Latest(vs, OpenOfKind(ups, "COMMBAD")).Some?
    ensures Latest(Stored(vs, ups, "COMMOK", now, sourceIp, true, true), ClosedAt(ups, "COMMBAD", now)).value.ts
      == Latest(vs, OpenOfKind(ups, "COMMBAD")).value.ts
  {
    var after := Stored(vs, ups, "COMMOK", now, sourceIp, true, true);
    var b := Latest(vs, OpenOfKind(ups, "COMMBAD"));
    var c := Latest(after, ClosedAt(ups, "COMMBAD", now)).value;
    CommOkStoreRows(vs, ups, now, sourceIp);
    assert c in after;
    var i :| 0 <= i < |after| && after[i] == c;
    assert i < |vs|;
    assert OpenOfKind(ups, "COMMBAD")(vs[i]) && c.ts == vs[i].ts;
    assert vs[i] in vs;
    var o := b.value;
    assert o in vs;
    var jb :| 0 <= jb < |vs| && vs[jb] == o;
    assert after[jb] in after && after[jb].ts == o.ts;
    MutuallyLatest(o, vs[i], c, after[jb]);
  }

  /** Read after the store, the intended duration is what the lookup would
    * have found just before it: the minutes since the latest open COMMBAD. */
  lemma CommOutageMatchesOpenEvent(vs: seq<EventView>, ups: string, now: int, sourceIp: Option<string>)
    requires forall v :: v in vs && v.end.Some? ==> v.end.value < now
    ensures CommOutageMinutes(Stored(vs, ups, "COMMOK", now, sourceIp, true, true), ups, now)
      == CommDownMinutes(vs, ups, now)
  {
    var after := Stored(vs, ups, "COMMOK", now, sourceIp, true, true);
    var f := Latest(after, ClosedAt(ups, "COMMBAD", now));
    var b := Latest(vs, OpenOfKind(ups, "COMMBAD"));
    CommOutageFound(vs, ups, now, sourceIp);
    if f.Some? {
      CommOutageSameStart(vs, ups, now, sourceIp);
    }
    assert StartOf(f) == StartOf(b);
  }

  // ---------------------------------------------------------------------
  // Email jobs, ntfy configurations and dispatch
  // ---------------------------------------------------------------------

  /** A settings row that asks for an email about `kind`. */
  predicate WantsEmail(row: NotificationSetting, kind: string)
  {
    row.enabled && row.eventType == Upper(kind) && row.idEmail.Some?
  }

  /** The mail configuration ids of the rows that want an email, in table order. */
  function EmailJobs(rows: seq<NotificationSetting>, kind: string): seq<int>
  {
    if |rows| == 0 then []
    else
      var last := rows[|rows| - 1];
      EmailJobs(rows[..|rows| - 1], kind) + (if WantsEmail(last, kind) then [last.idEmail.value] else [])
  }

  /** One job per enabled row of the upper-cased type with a mail configuration. */
  lemma {:induction false} EmailJobsSpec(rows: seq<NotificationSetting>, kind: string)
    ensures forall id :: id in EmailJobs(rows, kind) <==>
      exists i :: 0 <= i < |rows| && WantsEmail(rows[i], kind) && rows[i].idEmail == Some(id)
    ensures |EmailJobs(rows, kind)| <= |rows|
  {
    if |rows| > 0 {
      var n := |rows| - 1;
      EmailJobsSpec(rows[..n], kind);
      forall id | (exists i :: 0 <= i < |rows| && WantsEmail(rows[i], kind) && rows[i].idEmail == Some(id))
        ensures id in EmailJobs(rows, kind)
      {
        var i :| 0 <= i < |rows| && WantsEmail(rows[i], kind) && rows[i].idEmail == Some(id);
        if i < n {
          assert rows[..n][i] == rows[i];
        }
      }
    }
  }

  /** With one settings row per event type (the unique `event_type` column)
    * there is at most one email job per event. */
  lemma {:induction false} AtMostOneEmailJob(rows: seq<NotificationSetting>, kind: string)
    requires forall i, j :: 0 <= i < j < |rows| ==> rows[i].eventType != rows[j].eventType
    ensures |EmailJobs(rows, kind)| <= 1
    ensures |EmailJobs(rows, kind)| == 1 ==> exists i :: 0 <= i < |rows| && rows[i].eventType == Upper(kind)
  {
    if |rows| > 0 {
      var n := |rows| - 1;
      AtMostOneEmailJob(rows[..n], kind);
    }
  }

  /** `get_enabled_notifications`: one email job per wanted row; a failed
    * query (`None`) gives none. */
  method GetEnabledNotifications(rows: Option<seq<NotificationSetting>>, kind: string) returns (jobs: seq<int>)
    ensures jobs == if rows.Some? then EmailJobs(rows.value, kind) else []
  {
    jobs := [];
    if rows.None? {
      return;
    }
    var all := rows.value;
    var i := 0;
    while i < |all|
      invariant 0 <= i <= |all|
      invariant jobs == EmailJobs(all[..i], kind)
    {
      assert all[..i + 1][..i] == all[..i];
      if WantsEmail(all[i], kind) {
        jobs := jobs + [all[i].idEmail.value];
      }
      i := i + 1;
    }
    assert all[..|all|] == all;
  }

  /** `verify_email_config`: some mail configuration is enabled; `None`
    * stands for a failed query. */
  predicate VerifyEmailConfig(enabledColumn: Option<seq<bool>>)
  {
    enabledColumn.Some? && true in enabledColumn.value
  }

  /** The listed type whose `notify_*` column `notify_<kind lowered>` names,
    * searching from index `i`. */
  function NtfyColumn(kind: string, i: nat): (r: Option<string>)
    requires i <= |NTFY_EVENTS|
    ensures r.Some? ==> r.value in NTFY_EVENTS && Lower(r.value) == Lower(kind)
    ensures r.None? ==> forall j :: i <= j < |NTFY_EVENTS| ==> Lower(NTFY_EVENTS[j]) != Lower(kind)
  {
    ColumnAmong(NTFY_EVENTS, kind, i)
  }

  /** The first of `events` from index `i` on that lowers to what `kind`
    * lowers to. */
  function ColumnAmong(events: seq<string>, kind: string, i: nat): (r: Option<string>)
    requires i <= |events|
    ensures r.Some? ==> r.value in events && Lower(r.value) == Lower(kind)
    ensures r.None? ==> forall j :: i <= j < |events| ==> Lower(events[j]) != Lower(kind)
    decreases |events| - i
  {
    if i == |events| then None
    else if Lower(events[i]) == Lower(kind) then Some(events[i])
    else ColumnAmong(events, kind, i + 1)
  }

  function ConfigsWith(configs: seq<NtfyConfig>, column: string): (r: seq<NtfyConfig>)
    ensures forall c :: c in r <==> c in configs && column in c.notify
  {
    if |configs| == 0 then []
    else (if column in configs[0].notify then [configs[0]] else []) + ConfigsWith(configs[1..], column)
  }

  /** `get_enabled_ntfy_configs`: the configurations whose `notify_<type>`
    * flag is set; nothing without the ntfy module, for a type without such a
    * column (the attribute lookup raises) or when the query fails (`None`). */
  function EnabledNtfyConfigs(hasNtfy: bool, configs: Option<seq<NtfyConfig>>, kind: string): (r: seq<NtfyConfig>)
    ensures forall c :: c in r <==>
      hasNtfy && configs.Some? && c in configs.value && NtfyColumn(kind, 0).Some? && NtfyColumn(kind, 0).value in c.notify
  {
    if !hasNtfy || configs.None? then []
    else match NtfyColumn(kind, 0)
      case None => []
      case Some(column) => ConfigsWith(configs.value, column)
  }

  predicate UpperWord(s: string)
  {
    forall k :: 0 <= k < |s| ==> 'A' <= s[k] <= 'Z'
  }

  lemma EventsAreUpperWords()
    ensures forall j :: 0 <= j < |NTFY_EVENTS| ==> UpperWord(NTFY_EVENTS[j])
  {
    forall j | 0 <= j < |NTFY_EVENTS|
      ensures UpperWord(NTFY_EVENTS[j])
    {
    }
  }

  /** Lower-casing loses nothing on upper-case words. */
  lemma LowerUpperWord(a: string, b: string)
    requires UpperWord(a) && UpperWord(b)
    requires Lower(a) == Lower(b)
    ensures a == b
  {
    assert |a| == |b|;
    forall k | 0 <= k < |a|
      ensures a[k] == b[k]
    {
      assert Lower(a)[k] == Lower(b)[k];
    }
  }

  /** For a listed type the ntfy lookup selects exactly the configurations
    * that `is_event_enabled` accepts for it. */
  lemma EnabledNtfyConfigsListed(configs: seq<NtfyConfig>, kind: string)
    requires kind in NTFY_EVENTS
    ensures forall c :: c in EnabledNtfyConfigs(true, Some(configs), kind) <==> c in configs && IsEventEnabled(c, kind)
  {
    NtfyColumnListed(kind);
  }

  lemma NtfyColumnListed(kind: string)
    requires kind in NTFY_EVENTS
    ensures NtfyColumn(kind, 0) == Some(kind)
  {
    EventsAreUpperWords();
    ColumnAmongListed(NTFY_EVENTS, kind);
  }

  /** Among upper-case words, a listed word is found as itself. */
  lemma ColumnAmongListed(events: seq<string>, kind: string)
    requires forall j :: 0 <= j < |events| ==> UpperWord(events[j])
    requires kind in events
    ensures ColumnAmong(events, kind, 0) == Some(kind)
  {
    var j :| 0 <= j < |events| && events[j] == kind;
    assert Lower(events[j]) == Lower(kind);
    var found := ColumnAmong(events, kind, 0).value;
    var i :| 0 <= i < |events| && events[i] == found;
    LowerUpperWord(found, kind);
  }

  /** A channel `process_ups_event` hands the event to. */
  datatype Dispatch = Email(configId: int) | Ntfy(config: NtfyConfig) | Webhook

  function EmailDispatches(jobs: seq<int>): (r: seq<Dispatch>)
    ensures |r| == |jobs| && forall k :: 0 <= k < |jobs| ==> r[k] == Email(jobs[k])
  {
    seq(|jobs|, k requires 0 <= k < |jobs| => Email(jobs[k]))
  }

  function NtfyDispatches(configs: seq<NtfyConfig>): (r: seq<Dispatch>)
    ensures |r| == |configs| && forall k :: 0 <= k < |configs| ==> r[k] == Ntfy(configs[k])
  {
    seq(|configs|, k requires 0 <= k < |configs| => Ntfy(configs[k]))
  }

  /** What `process_ups_event` sends once the event is stored: the email
    * jobs if some mail configuration is enabled, each ntfy configuration if
    * the module is present, and the webhook fan-out if present. What a
    * channel answers does not enter: each failure is caught on its own. */
  function Dispatches(jobs: seq<int>, mailReady: bool, ntfys: seq<NtfyConfig>, hasNtfy: bool, hasWebhook: bool): seq<Dispatch>
  {
    if jobs == [] && ntfys == [] && !hasWebhook then []
    else
      (if jobs != [] && mailReady then EmailDispatches(jobs) else [])
      + (if ntfys != [] && hasNtfy then NtfyDispatches(ntfys) else [])
      + (if hasWebhook then [Webhook] else [])
  }

  /** Email goes out only when some mail configuration is enabled, one per
    * job; the webhook is tried whenever it is present. */
  lemma DispatchRules(jobs: seq<int>, mailReady: bool, ntfys: seq<NtfyConfig>, hasNtfy: bool, hasWebhook: bool)
    ensures forall id :: Email(id) in Dispatches(jobs, mailReady, ntfys, hasNtfy, hasWebhook) <==> mailReady && id in jobs
    ensures forall c :: Ntfy(c) in Dispatches(jobs, mailReady, ntfys, hasNtfy, hasWebhook) <==> hasNtfy && c in ntfys
    ensures Webhook in Dispatches(jobs, mailReady, ntfys, hasNtfy, hasWebhook) <==> hasWebhook
  {
    var d := Dispatches(jobs, mailReady, ntfys, hasNtfy, hasWebhook);
    var e := if jobs != [] && mailReady then EmailDispatches(jobs) else [];
    var n := if ntfys != [] && hasNtfy then NtfyDispatches(ntfys) else [];
    var w := if hasWebhook then [Webhook] else [];
    if !(jobs == [] && ntfys == [] && !hasWebhook) {
      assert d == e + n + w;
      forall id | mailReady && id in jobs
        ensures Email(id) in d
      {
        var i :| 0 <= i < |jobs| && jobs[i] == id;
        assert e[i] == Email(id);
        assert Email(id) in e + n + w;
      }
      forall c | hasNtfy && c in ntfys
        ensures Ntfy(c) in d
      {
        var i :| 0 <= i < |ntfys| && ntfys[i] == c;
        assert n[i] == Ntfy(c);
        assert Ntfy(c) in e + n + w;
      }
      forall id | Email(id) in d
        ensures mailReady && id in jobs
      {
        assert Email(id) in e;
        var i :| 0 <= i < |e| && e[i] == Email(id);
        assert jobs[i] == id;
      }
      forall c | Ntfy(c) in d
        ensures hasNtfy && c in ntfys
      {
        assert Ntfy(c) in n;
        var i :| 0 <= i < |n| && n[i] == Ntfy(c);
        assert ntfys[i] == c;
      }
    }
  }

  /** `process_ups_event`: store the event first; if that fails report
    * failure and send nothing, otherwise hand the event to the channels and
    * report success whatever they answer. */
  method ProcessUpsEvent(table: EventTable, ups: string, kind: string, now: int, sourceIp: Option<string>,
                         closeCommit: CommitResult, insertCommit: CommitResult,
                         settings: Option<seq<NotificationSetting>>, mailEnabled: Option<seq<bool>>,
                         hasNtfy: bool, ntfyConfigs: Option<seq<NtfyConfig>>, hasWebhook: bool)
    returns (ok: bool, sent: seq<Dispatch>)
    requires table.Valid()
    modifies table, table.rows
    ensures table.Valid()
    ensures ok <==> insertCommit.None?
    ensures table.Views() == Stored(old(table.Views()), ups, kind, now, sourceIp, closeCommit.None?, ok)
    ensures !ok ==> sent == []
    ensures ok ==> sent == Dispatches(if settings.Some? then EmailJobs(settings.value, kind) else [],
                                      VerifyEmailConfig(mailEnabled),
                                      EnabledNtfyConfigs(hasNtfy, ntfyConfigs, kind), hasNtfy, hasWebhook)
  {
    sent := [];
    ok := table.StoreEventInDatabase(ups, kind, now, sourceIp, closeCommit, insertCommit);
    if ok {
      sent := NotifyChannels(kind, settings, mailEnabled, hasNtfy, ntfyConfigs, hasWebhook);
    }
  }

  /** The second half of `process_ups_event`, once the event is stored: the
    * enabled email jobs and ntfy configurations, then the webhooks. */
  method NotifyChannels(kind: string, settings: Option<seq<NotificationSetting>>, mailEnabled: Option<seq<bool>>,
                        hasNtfy: bool, ntfyConfigs: Option<seq<NtfyConfig>>, hasWebhook: bool)
    returns (sent: seq<Dispatch>)
    ensures sent == Dispatches(if settings.Some? then EmailJobs(settings.value, kind) else [],
                               VerifyEmailConfig(mailEnabled),
                               EnabledNtfyConfigs(hasNtfy, ntfyConfigs, kind), hasNtfy, hasWebhook)
  {
    sent := [];
    var jobs := GetEnabledNotifications(settings, kind);
    var ntfys := EnabledNtfyConfigs(hasNtfy, ntfyConfigs, kind);
    if jobs == [] && ntfys == [] && !hasWebhook {
      return;
    }
    var emails := [];
    if jobs != [] && VerifyEmailConfig(mailEnabled) {
      emails := SendEmails(jobs);
    }
    var pushes := [];
    if ntfys != [] && hasNtfy {
      pushes := SendNtfys(ntfys);
    }
    sent := emails + pushes + (if hasWebhook then [Webhook] else []);
  }

  /** The email loop of `process_ups_event`: one message per job, in order. */
  method SendEmails(jobs: seq<int>) returns (sent: seq<Dispatch>)
    ensures sent == EmailDispatches(jobs)
  {
    sent := [];
    var i := 0;
    while i < |jobs|
      invariant 0 <= i <= |jobs|
      invariant |sent| == i && forall k :: 0 <= k < i ==> sent[k] == Email(jobs[k])
    {
      sent := sent + [Email(jobs[i])];
      i := i + 1;
    }
  }

  /** The ntfy loop of `process_ups_event`: one message per configuration. */
  method SendNtfys(configs: seq<NtfyConfig>) returns (sent: seq<Dispatch>)
    ensures sent == NtfyDispatches(configs)
  {
    sent := [];
    var i := 0;
    while i < |configs|
      invariant 0 <= i <= |configs|
      invariant |sent| == i && forall k :: 0 <= k < i ==> sent[k] == Ntfy(configs[k])
    {
      sent := sent + [Ntfy(configs[i])];
      i := i + 1;
    }
  }

  // ---------------------------------------------------------------------
  // Unit suffixes and the fields of an email notification
  // ---------------------------------------------------------------------

  /** Append `suffix` unless the text already ends with it. */
  function WithSuffix(s: string, suffix: string): (r: string)
    ensures EndsWith(r, suffix)
    ensures EndsWith(s, suffix) ==> r == s
    ensures !EndsWith(s, suffix) ==> r == s + suffix
  {
    if EndsWith(s, suffix) then s
    else
      assert (s + suffix)[|s + suffix| - |suffix|..] == suffix;
      s + suffix
  }

  /** Append " min" unless the text already ends with "min". */
  function WithMinutes(s: string): (r: string)
    ensures EndsWith(r, "min")
    ensures EndsWith(s, "min") ==> r == s
    ensures !EndsWith(s, "min") ==> r == s + " min"
  {
    if EndsWith(s, "min") then s
    else
      assert (s + " min")[|s + " min"| - 3..] == "min";
      s + " min"
  }

  /** Normalising twice changes nothing more than normalising once. */
  lemma SuffixesIdempotent(s: string, suffix: string)
    ensures WithSuffix(WithSuffix(s, suffix), suffix) == WithSuffix(s, suffix)
    ensures WithMinutes(WithMinutes(s)) == WithMinutes(s)
  {
  }

  /** `d.get(key, default)` on the string readings of a UPS. */
  function InfoGet(info: Dict<string>, key: string, default: string): string
  {
    Get(info, key).GetOr(default)
  }

  /** `d.get(a) or d.get(b) or default` */
  function FirstSet(info: Dict<string>, a: string, b: string, default: string): (r: string)
    ensures r == default || Get(info, a) == Some(r) || Get(info, b) == Some(r)
  {
    if Get(info, a).Some? && Get(info, a).value != "" then Get(info, a).value
    else if Get(info, b).Some? && Get(info, b).value != "" then Get(info, b).value
    else default
  }

  /** `f"{minutes} min"` */
  function MinutesText(minutes: int): (r: string)
    ensures EndsWith(r, "min")
  {
    var t := IntToString(minutes) + " min";
    assert t[|t| - 3..] == "min";
    t
  }

  /** The readings `send_email_notification` passes to the template. */
  datatype EmailReadings = EmailReadings(
    batteryCharge: string,
    inputVoltage: string,
    batteryVoltage: string,
    runtimeEstimate: string,
    batteryDuration: string,
    commDuration: string,
    upsModel: string,
    upsStatus: string)

  /** The readings with their units made explicit; an ONLINE event carries
    * the battery duration and a COMMOK event the outage duration that were
    * derived from the events table, when one was found. */
  function EmailReadingsFor(info: Dict<string>, kind: string, batteryMinutes: Option<int>, commMinutes: Option<int>): (r: EmailReadings)
    ensures EndsWith(r.batteryCharge, "%") && EndsWith(r.inputVoltage, "V") && EndsWith(r.batteryVoltage, "V")
    ensures EndsWith(r.runtimeEstimate, "min") && EndsWith(r.batteryDuration, "min") && EndsWith(r.commDuration, "min")
    ensures kind == "ONLINE" && batteryMinutes.Some? ==> r.batteryDuration == MinutesText(batteryMinutes.value)
    ensures !(kind == "ONLINE" && batteryMinutes.Some?) ==> r.batteryDuration == WithMinutes(InfoGet(info, "battery_duration", "0 min"))
    ensures kind == "COMMOK" && commMinutes.Some? ==> r.commDuration == MinutesText(commMinutes.value)
    ensures !(kind == "COMMOK" && commMinutes.Some?) ==> r.commDuration == WithMinutes(InfoGet(info, "comm_duration", "0 min"))
  {
    var battery := if kind == "ONLINE" && batteryMinutes.Some? then MinutesText(batteryMinutes.value)
                   else WithMinutes(InfoGet(info, "battery_duration", "0 min"));
    var comm := if kind == "COMMOK" && commMinutes.Some? then MinutesText(commMinutes.value)
                else WithMinutes(InfoGet(info, "comm_duration", "0 min"));
    EmailReadings(
      WithSuffix(InfoGet(info, "battery_charge", "0"), "%"),
      WithSuffix(InfoGet(info, "input_voltage", "0"), "V"),
      WithSuffix(InfoGet(info, "battery_voltage", "0"), "V"),
      WithMinutes(InfoGet(info, "runtime_estimate", "0")),
      battery,
      comm,
      FirstSet(info, "ups_model", "device_model", "UPS Device"),
      InfoGet(info, "ups_status", "Unknown"))
  }

  // ---------------------------------------------------------------------
  // ntfy: titles, tags, priorities and the request
  // ---------------------------------------------------------------------

  /** The notification title (ASCII only). */
  function NtfyTitle(ups: string, kind: string): (r: string)
    ensures EndsWith(r, " - " + ups)
  {
    var lead :=
      if kind == "ONLINE" then "UPS Online"
      else if kind == "ONBATT" then "UPS On Battery"
      else if kind == "LOWBATT" then "UPS Low Battery"
      else if kind == "COMMOK" then "UPS Communication Restored"
      else if kind == "COMMBAD" then "UPS Communication Lost"
      else if kind == "SHUTDOWN" then "System Shutdown Imminent"
      else if kind == "REPLBATT" then "UPS Battery Needs Replacement"
      else if kind == "NOCOMM" then "UPS Not Reachable"
      else if kind == "NOPARENT" then "Parent Process Lost"
      else if kind == "FSD" then "UPS Forced Shutdown"
      else "UPS Event: " + kind;
    assert (lead + " - " + ups)[|lead|..] == " - " + ups;
    lead + " - " + ups
  }

  /** The ntfy tags for an event type; "" for a type without tags. */
  function NtfyTags(kind: string): string
  {
    if kind == "ONLINE" then "white_check_mark"
    else if kind == "ONBATT" then "battery"
    else if kind == "LOWBATT" then "warning,battery"
    else if kind == "COMMOK" then "signal_strength"
    else if kind == "COMMBAD" then "no_mobile_phones"
    else if kind == "SHUTDOWN" then "sos,warning"
    else if kind == "REPLBATT" then "wrench,battery"
    else if kind == "NOCOMM" then "no_entry,warning"
    else if kind == "NOPARENT" then "ghost"
    else if kind == "FSD" then "sos,warning"
    else ""
  }

  /** The fixed priority of an event type, if it has one. */
  function FixedPriority(kind: string): Option<int>
  {
    if kind in {"LOWBATT", "SHUTDOWN", "FSD"} then Some(5)
    else if kind in {"ONBATT", "COMMBAD", "NOCOMM"} then Some(4)
    else if kind in {"REPLBATT", "NOPARENT", "ONLINE"} then Some(3)
    else if kind == "COMMOK" then Some(2)
    else None
  }

  /** `str(priority)`: the fixed priority of the type, else the configured
    * one; an unset configured priority prints as "None". */
  function PriorityHeader(kind: string, configured: Option<int>): (r: string)
  {
    match FixedPriority(kind)
    case Some(p) => IntToString(p)
    case None => if configured.Some? then IntToString(configured.value) else "None"
  }

  /** Critical events are urgent, losing power or contact is high, the
    * rest of the known types are normal or low; other types use the
    * configuration's own priority. */
  lemma PriorityLevels(kind: string, configured: Option<int>)
    ensures kind in {"LOWBATT", "SHUTDOWN", "FSD"} ==> PriorityHeader(kind, configured) == "5"
    ensures kind in {"ONBATT", "COMMBAD", "NOCOMM"} ==> PriorityHeader(kind, configured) == "4"
    ensures kind in {"REPLBATT", "NOPARENT", "ONLINE"} ==> PriorityHeader(kind, configured) == "3"
    ensures kind == "COMMOK" ==> PriorityHeader(kind, configured) == "2"
    ensures NtfyTags(kind) == "" <==> FixedPriority(kind).None? && kind != "FSD"
    ensures FixedPriority(kind).None? ==>
      PriorityHeader(kind, configured) == if configured.Some? then IntToString(configured.value) else "None"
  {
  }

  const EVENTS_PAGE: string := "http://192.168.10.19:5050/events"

  /** `json.dumps` of the single "view" action. */
  const VIEW_ACTION: string :=
    "[{\"action\": \"view\", \"label\": \"Open Events Page\", \"url\": \"" + EVENTS_PAGE + "\"}]"

  /** The request headers; the optional ones are absent from the dict
    * when `None`. */
  datatype NtfyHeaders = NtfyHeaders(title: string, priority: string, click: Option<string>, tags: Option<string>, actions: Option<string>)

  datatype NtfyRequest = NtfyRequest(url: string, headers: NtfyHeaders, auth: Option<(string, string)>)

  /** Basic auth as written: the configuration reaches the sender through
    * `to_dict`, so the password it sees is the mask. */
  function NtfyAuthAsWritten(c: NtfyConfig): (r: Option<(string, string)>)
    ensures r.Some? <==> c.useAuth && c.username.Some? && c.username.value != "" && c.password.Some? && c.password.value != ""
    ensures r.Some? ==> r.value == (c.username.value, MASK)
  {
    var user := c.username.GetOr("");
    var password := Masked(c.password);
    if c.useAuth && user != "" && password != "" then Some((user, password)) else None
  }

  /** Whenever the sender authenticates, it sends the mask instead of the
    * stored password. */
  lemma NtfyAuthSendsMask(c: NtfyConfig)
    ensures NtfyAuthAsWritten(c).Some? ==> NtfyAuthAsWritten(c).value.1 == MASK
    ensures c.useAuth && c.username.Some? && c.username.value != "" && c.password.Some? && c.password.value != ""
      ==> NtfyAuthAsWritten(c) == Some((c.username.value, MASK))
  {
  }

  /** Basic auth as intended: sent only when enabled with a username and a
    * password, and carrying the stored password. */
  function NtfyAuth(c: NtfyConfig): (r: Option<(string, string)>)
    ensures r.Some? <==> c.useAuth && c.username.Some? && c.username.value != "" && c.password.Some? && c.password.value != ""
    ensures r.Some? ==> r.value == (c.username.value, c.password.value)
  {
    var user := c.username.GetOr("");
    var password := c.password.GetOr("");
    if c.useAuth && user != "" && password != "" then Some((user, password)) else None
  }

  /** Event types whose notification links to the events page. */
  predicate HasViewAction(kind: string)
  {
    kind == "ONBATT" || kind == "LOWBATT" || kind == "COMMBAD" || kind == "NOCOMM" || kind == "REPLBATT"
  }

  /** The server is the development host or this machine. */
  predicate LocalServer(server: string)
  {
    Contains(server, "192.168.10.19") || Contains(server, "localhost") || Contains(server, "127.0.0.1")
  }

  /** The request `send_ntfy_notification` posts for a configuration: to
    * `<server>/<topic>`; title and priority always, the events-page link
    * for a local server, the tags when enabled and non-empty, the view
    * action for the events that have one, and basic auth with the
    * credentials `to_dict` hands over, whose password is the mask. */
  function NtfyEventRequest(ups: string, kind: string, c: NtfyConfig): (r: NtfyRequest)
    ensures r.url == c.server + "/" + c.topic
    ensures r.headers.title == NtfyTitle(ups, kind)
    ensures r.headers.priority == PriorityHeader(kind, c.priority)
    ensures r.headers.click.Some? <==> LocalServer(c.server)
    ensures r.headers.tags.Some? <==> c.useTags && NtfyTags(kind) != ""
    ensures r.headers.tags.Some? ==> r.headers.tags.value == NtfyTags(kind)
    ensures r.headers.actions.Some? <==> HasViewAction(kind)
    ensures r.auth == NtfyAuthAsWritten(c)
    ensures r.auth.Some? ==> c.password.Some? && c.password.value != "" && r.auth.value.1 == MASK
  {
    var tags := NtfyTags(kind);
    var headers := NtfyHeaders(NtfyTitle(ups, kind), PriorityHeader(kind, c.priority),
                               if LocalServer(c.server) then Some(EVENTS_PAGE) else None,
                               if c.useTags && tags != "" then Some(tags) else None,
                               if HasViewAction(kind) then Some(VIEW_ACTION) else None);
    NtfyRequest(c.server + "/" + c.topic, headers, NtfyAuthAsWritten(c))
  }

  /** The request as intended: the same request, authenticated with the
    * stored password. */
  function NtfyEventRequestCorrected(ups: string, kind: string, c: NtfyConfig): (r: NtfyRequest)
    ensures r.url == NtfyEventRequest(ups, kind, c).url && r.headers == NtfyEventRequest(ups, kind, c).headers
    ensures r.auth.Some? <==> NtfyEventRequest(ups, kind, c).auth.Some?
    ensures r.auth.Some? ==> c.password.Some? && r.auth.value == (NtfyEventRequest(ups, kind, c).auth.value.0, c.password.value)
  {
    NtfyEventRequest(ups, kind, c).(auth := NtfyAuth(c))
  }

  /** The notification counts as delivered only on 200, 201 or 202; `None`
    * stands for an exception while posting. */
  predicate NtfyDelivered(status: Option<int>)
  {
    status.Some? && status.value in {200, 201, 202}
  }

  // ---------------------------------------------------------------------
  // format_ups_details
  // ---------------------------------------------------------------------

  /** The section headings; the source file stores its pictograms as
    * mis-decoded characters, reproduced here code point by code point. */
  const DEVICE_HEADER: string := "\U{F8FF}\U{FC}\U{EC}\U{B1} DEVICE INFO:"
  const POWER_HEADER: string := "\U{201A}\U{F6}\U{B0} POWER INFO:"
  const BATTERY_HEADER: string := "\U{F8FF}\U{FC}\U{EE}\U{E3} BATTERY INFO:"
  const EVENT_HEADER: string := "\U{F8FF}\U{FC}\U{EC}\U{D6} EVENT INFO:"
  const LAST_UPDATE: string := "\n\U{201A}\U{E8}\U{221E} Last update: "
  /** The temperature unit, stored the same way. */
  const CELSIUS: string := "\U{AC}\U{221E}C"

  /** `ups_info.get(key)` is truthy. */
  predicate Truthy(info: Dict<string>, key: string)
  {
    Get(info, key).Some? && Get(info, key).value != ""
  }

  /** One indented `label: value` line of a section. */
  function Line(name: string, value: string): string
  {
    "  " + name + ": " + value
  }

  /** The readings of the report with their units made explicit. */
  datatype DetailReadings = DetailReadings(
    batteryCharge: string,
    inputVoltage: string,
    batteryVoltage: string,
    outputVoltage: string,
    nominalVoltage: string,
    load: string,
    runtimeEstimate: string,
    batteryDuration: string)

  /** The charge without its '%' as whole minutes of runtime, when it is a
    * positive whole number (one minute per percent). */
  function ChargeMinutes(charge: string): (r: Option<nat>)
    ensures r.Some? ==> r.value > 0
  {
    var c := if EndsWith(charge, "%") then charge[..|charge| - 1] else charge;
    if IsDigits(c) && DigitsValue(c) > 0 then Some(DigitsValue(c)) else None
  }

  /** The device uptime in whole minutes, when it is under an hour (the
    * UPS was probably restarted after a power loss). */
  function UptimeMinutes(info: Dict<string>): (r: Option<nat>)
    ensures r.Some? ==> 0 < r.value < 60
  {
    var u := Get(info, "device_uptime");
    if u.Some? && IsDigits(u.value) && 0 < DigitsValue(u.value) / 60 < 60 then Some(DigitsValue(u.value) / 60)
    else None
  }

  /** `f"{v} min"` for a whole number of minutes. */
  function NatMinutes(v: nat): string
  {
    NatToString(v) + " min"
  }

  function DetailReadingsFor(info: Dict<string>): (r: DetailReadings)
    ensures EndsWith(r.batteryCharge, "%") && EndsWith(r.inputVoltage, "V") && EndsWith(r.batteryVoltage, "V")
    ensures r.outputVoltage == "0" || EndsWith(r.outputVoltage, "V")
    ensures r.nominalVoltage == "0" || EndsWith(r.nominalVoltage, "V")
    ensures r.load == "" || EndsWith(r.load, "%")
  {
    var charge := WithSuffix(InfoGet(info, "battery_charge", "0"), "%");
    var output := InfoGet(info, "output_voltage", "0");
    var nominal := InfoGet(info, "battery_voltage_nominal", "0");
    var load := InfoGet(info, "ups_load", "");
    var duration := WithMinutes(InfoGet(info, "battery_duration", "0 min"));
    var runtime := InfoGet(info, "runtime_estimate", "0 min");
    DetailReadings(
      charge,
      WithSuffix(InfoGet(info, "input_voltage", "0"), "V"),
      WithSuffix(InfoGet(info, "battery_voltage", "0"), "V"),
      if output == "0" then output else WithSuffix(output, "V"),
      if nominal == "0" then nominal else WithSuffix(nominal, "V"),
      if load == "" then load else WithSuffix(load, "%"),
      if runtime == "0 min" && charge != "0%" && ChargeMinutes(charge).Some? then NatMinutes(ChargeMinutes(charge).value) else runtime,
      if duration == "0 min" && UptimeMinutes(info).Some? then NatMinutes(UptimeMinutes(info).value) else duration)
  }

  lemma ChargeMinutesZero()
    ensures ChargeMinutes("0%").None?
  {
    assert "0%"[..1] == "0";
    assert DigitsValue("0") == 0;
  }

  lemma NatMinutesNotZero(v: nat)
    requires v > 0
    ensures NatMinutes(v) != "0 min"
  {
    var digits := NatToString(v);
    NatToStringRoundTrip(v);
    assert DigitsValue("0") == 0;
    assert digits != "0";
    assert NatMinutes(v)[..|digits|] == digits;
    assert "0 min"[..1] == "0";
  }

  /** The estimate is replaced only when it reads exactly "0 min", and then
    * never by "0 min" when the charge is a positive whole percentage;
    * likewise the battery duration falls back on a short uptime. */
  lemma DetailFallbacks(info: Dict<string>)
    ensures var r := DetailReadingsFor(info);
      r.runtimeEstimate != InfoGet(info, "runtime_estimate", "0 min") ==> InfoGet(info, "runtime_estimate", "0 min") == "0 min"
    ensures var r := DetailReadingsFor(info);
      InfoGet(info, "runtime_estimate", "0 min") == "0 min" && ChargeMinutes(r.batteryCharge).Some? ==> r.runtimeEstimate != "0 min"
    ensures var r := DetailReadingsFor(info);
      r.batteryDuration == "0 min" ==> UptimeMinutes(info).None?
  {
    var r := DetailReadingsFor(info);
    var charge := r.batteryCharge;
    ChargeMinutesZero();
    if ChargeMinutes(charge).Some? {
      NatMinutesNotZero(ChargeMinutes(charge).value);
    }
    if UptimeMinutes(info).Some? {
      NatMinutesNotZero(UptimeMinutes(info).value);
    }
  }

  function DeviceSection(info: Dict<string>): (lines: seq<string>)
    ensures 3 <= |lines| <= 6 && lines[0] == DEVICE_HEADER
  {
    [DEVICE_HEADER,
     Line("Model", FirstSet(info, "device_model", "ups_model", "Unknown")),
     Line("Serial", FirstSet(info, "device_serial", "ups_serial", "Unknown"))]
    + (if InfoGet(info, "device_location", "") != "" then [Line("Location", InfoGet(info, "device_location", ""))] else [])
    + (if Truthy(info, "ups_firmware") then [Line("Firmware", InfoGet(info, "ups_firmware", ""))] else [])
    + (if Truthy(info, "ups_mfr") then [Line("Manufacturer", InfoGet(info, "ups_mfr", ""))] else [])
  }

  function PowerSection(info: Dict<string>, d: DetailReadings): (lines: seq<string>)
    ensures 2 <= |lines| <= 5 && lines[0] == POWER_HEADER
    ensures lines[1] == Line("Status", InfoGet(info, "ups_status", "Unknown"))
  {
    [POWER_HEADER, Line("Status", InfoGet(info, "ups_status", "Unknown"))]
    + (if d.inputVoltage != "0V" then [Line("Input Voltage", d.inputVoltage)] else [])
    + (if d.outputVoltage != "0V" then [Line("Output Voltage", d.outputVoltage)] else [])
    + (if d.load != "" then [Line("UPS Load", d.load)] else [])
  }

  /** The temperature line: present unless the reading is missing or "0". */
  function Temperature(info: Dict<string>): (r: Option<string>)
    ensures r.Some? <==> Get(info, "battery_temperature").Some? && Get(info, "battery_temperature").value != "0"
    ensures r.Some? ==> EndsWith(r.value, CELSIUS)
  {
    var t := Get(info, "battery_temperature");
    if t.Some? && t.value != "0" then Some(WithSuffix(t.value, CELSIUS)) else None
  }

  function BatterySection(info: Dict<string>, d: DetailReadings): (lines: seq<string>)
    ensures 2 <= |lines| <= 7 && lines[0] == BATTERY_HEADER
    ensures lines[1] == Line("Charge", d.batteryCharge)
  {
    [BATTERY_HEADER, Line("Charge", d.batteryCharge)]
    + (if d.runtimeEstimate != "" && d.runtimeEstimate != "0 min" then [Line("Est. Runtime", d.runtimeEstimate)] else [])
    + (if d.batteryVoltage != "0V" then [Line("Battery Voltage", d.batteryVoltage)] else [])
    + (if d.nominalVoltage != "0V" then [Line("Nominal Voltage", d.nominalVoltage)] else [])
    + (if Temperature(info).Some? then [Line("Temperature", Temperature(info).value)] else [])
    + (if d.batteryDuration != "0 min" then [Line("Battery Duration", d.batteryDuration)] else [])
  }

  /** The event section, when both the date and the time are known. */
  function EventSection(info: Dict<string>): (r: seq<seq<string>>)
    ensures |r| <= 1 && (|r| == 1 <==> Truthy(info, "event_date") && Truthy(info, "event_time"))
    ensures forall k :: 0 <= k < |r| ==> |r[k]| == 3 && r[k][0] == EVENT_HEADER
  {
    if Truthy(info, "event_date") && Truthy(info, "event_time") then
      [[EVENT_HEADER, Line("Date", InfoGet(info, "event_date", "")), Line("Time", InfoGet(info, "event_time", ""))]]
    else []
  }

  /** `f"{ups_info.get('last_update')}"`: a missing value prints as "None". */
  function LastUpdateSection(info: Dict<string>): (r: seq<string>)
    ensures |r| == 1 && StartsWith(r[0], LAST_UPDATE)
  {
    var line := LAST_UPDATE + InfoGet(info, "last_update", "None");
    assert line[..|LAST_UPDATE|] == LAST_UPDATE;
    [line]
  }

  /** The sections as the code assembles them: the power section is built
    * but never added to the report. */
  function DetailSectionsAsWritten(info: Dict<string>): (r: seq<seq<string>>)
    ensures 3 <= |r| <= 4
    ensures |r[0]| >= 3 && |r[1]| >= 2
    ensures r[0][0] == DEVICE_HEADER && r[1][0] == BATTERY_HEADER
    ensures r[0] == DeviceSection(info)
    ensures |r| == 4 <==> Truthy(info, "event_date") && Truthy(info, "event_time")
    ensures r[|r| - 1] == LastUpdateSection(info)
  {
    var device, battery := DeviceSection(info), BatterySection(info, DetailReadingsFor(info));
    var event, last := EventSection(info), LastUpdateSection(info);
    AssembledAsWritten(device, battery, event, last);
    [device, battery] + event + [last]
  }

  /** Where each part lands in the report as the code assembles it. */
  lemma AssembledAsWritten(a: seq<string>, c: seq<string>, event: seq<seq<string>>, last: seq<string>)
    ensures var r := [a, c] + event + [last];
      |r| == 3 + |event| && r[0] == a && r[1] == c && r[|r| - 1] == last
  {
  }

  /** The sections of the report: device, power, battery, the event when
    * dated, and the last update. */
  function DetailSections(info: Dict<string>): (r: seq<seq<string>>)
    ensures 4 <= |r| <= 5
    ensures |r[0]| >= 3 && |r[1]| >= 2 && |r[2]| >= 2
    ensures r[0][0] == DEVICE_HEADER && r[1][0] == POWER_HEADER && r[2][0] == BATTERY_HEADER
    ensures r[1][1] == Line("Status", InfoGet(info, "ups_status", "Unknown"))
    ensures r[0] == DeviceSection(info) && r[1] == PowerSection(info, DetailReadingsFor(info))
    ensures |r| == 5 <==> Truthy(info, "event_date") && Truthy(info, "event_time")
    ensures r[|r| - 1] == LastUpdateSection(info)
  {
    var d := DetailReadingsFor(info);
    var device, power, battery := DeviceSection(info), PowerSection(info, d), BatterySection(info, d);
    var event, last := EventSection(info), LastUpdateSection(info);
    Assembled(device, power, battery, event, last);
    [device, power, battery] + event + [last]
  }

  /** Where each part lands in the assembled report. */
  lemma Assembled(a: seq<string>, b: seq<string>, c: seq<string>, event: seq<seq<string>>, last: seq<string>)
    ensures var r := [a, b, c] + event + [last];
      |r| == 4 + |event| && r[0] == a && r[1] == b && r[2] == c && r[|r| - 1] == last
  {
  }

  /** As written, the report is the intended one without its power section:
    * no section of it is headed POWER INFO, so the status, the input and
    * output voltages and the load never reach the reader. */
  lemma PowerSectionDropped(info: Dict<string>)
    ensures DetailSectionsAsWritten(info) == DetailSections(info)[..1] + DetailSections(info)[2..]
    ensures forall k :: 0 <= k < |DetailSectionsAsWritten(info)| ==>
      |DetailSectionsAsWritten(info)[k]| > 0 && DetailSectionsAsWritten(info)[k][0] != POWER_HEADER
  {
    var d := DetailReadingsFor(info);
    var device, battery := DeviceSection(info), BatterySection(info, d);
    var event, last := EventSection(info), LastUpdateSection(info);
    SkipSecond(device, PowerSection(info, d), battery, event, last);
    HeadedSections(device, battery, event, last);
  }

  lemma SkipSecond(a: seq<string>, b: seq<string>, c: seq<string>, event: seq<seq<string>>, last: seq<string>)
    ensures [a, c] + event + [last] == ([a, b, c] + event + [last])[..1] + ([a, b, c] + event + [last])[2..]
  {
    var r := [a, b, c] + event + [last];
    assert r[..1] == [a];
    assert r[2..] == [c] + event + [last];
  }

  lemma HeadedSections(device: seq<string>, battery: seq<string>, event: seq<seq<string>>, last: seq<string>)
    requires |device| > 0 && device[0] == DEVICE_HEADER
    requires |battery| > 0 && battery[0] == BATTERY_HEADER
    requires |event| <= 1 && forall k :: 0 <= k < |event| ==> |event[k]| > 0 && event[k][0] == EVENT_HEADER
    requires |last| == 1 && StartsWith(last[0], LAST_UPDATE)
    ensures forall k :: 0 <= k < |[device, battery] + event + [last]| ==>
      |([device, battery] + event + [last])[k]| > 0 && ([device, battery] + event + [last])[k][0] != POWER_HEADER
  {
    var w := [device, battery] + event + [last];
    forall k | 0 <= k < |w|
      ensures |w[k]| > 0 && w[k][0] != POWER_HEADER
    {
      if k == 0 {
        assert DEVICE_HEADER[0] != POWER_HEADER[0];
      } else if k == 1 {
        assert BATTERY_HEADER[0] != POWER_HEADER[0];
      } else if k == |w| - 1 {
        assert w[k] == last;
        assert w[k][0][0] == LAST_UPDATE[0] != POWER_HEADER[0];
      } else {
        assert w[k] == event[k - 2];
        assert EVENT_HEADER[0] != POWER_HEADER[0];
      }
    }
  }

  /** Each section's lines joined by newlines. */
  function SectionTexts(sections: seq<seq<string>>): (texts: seq<string>)
    ensures |texts| == |sections|
    ensures forall k :: 0 <= k < |sections| ==> texts[k] == Join(sections[k], "\n")
  {
    seq(|sections|, k requires 0 <= k < |sections| => Join(sections[k], "\n"))
  }

  /** The report text: the sections' texts separated by blank lines. */
  function Render(sections: seq<seq<string>>): string
  {
    Join(SectionTexts(sections), "\n\n")
  }

  /** A report opens with the first line of its first section. */
  lemma RenderStartsWith(sections: seq<seq<string>>)
    requires |sections| > 0 && |sections[0]| > 0
    ensures StartsWith(Render(sections), sections[0][0])
  {
    var texts := SectionTexts(sections);
    JoinStartsWith(sections[0], "\n");
    JoinStartsWith(texts, "\n\n");
    assert StartsWith(texts[0], sections[0][0]);
  }

  /** `format_ups_details`, as written: the device, battery and (when dated)
    * event sections and the last update, each joined by newlines and
    * separated by blank lines; the power section is left out. */
  function FormatUpsDetails(info: Dict<string>): (r: string)
    ensures r == Render(DetailSectionsAsWritten(info))
    ensures StartsWith(r, DEVICE_HEADER)
  {
    var sections := DetailSectionsAsWritten(info);
    RenderStartsWith(sections);
    Render(sections)
  }

  /** The report as intended, with the power section after the device
    * section. */
  function FormatUpsDetailsCorrected(info: Dict<string>): (r: string)
    ensures r == Render(DetailSections(info))
    ensures StartsWith(r, DEVICE_HEADER)
  {
    var sections := DetailSections(info);
    RenderStartsWith(sections);
    Render(sections)
  }

  /** Rendering a report section by section. */
  lemma RenderCons(a: seq<string>, rest: seq<seq<string>>)
    requires |rest| > 0
    ensures Render([a] + rest) == Join(a, "\n") + "\n\n" + Render(rest)
  {
    var t := SectionTexts([a] + rest);
    assert t[1..] == SectionTexts(rest);
  }

  /** The written report is the intended one with the power block cut out:
    * both start with the device block, and the intended one follows it with
    * the power block before what the written one has there. */
  lemma PowerBlockMissing(info: Dict<string>)
    ensures var device := Join(DeviceSection(info), "\n");
      var power := Join(PowerSection(info, DetailReadingsFor(info)), "\n");
      var rest := Render(DetailSectionsAsWritten(info)[1..]);
      && FormatUpsDetails(info) == device + "\n\n" + rest
      && FormatUpsDetailsCorrected(info) == device + "\n\n" + (power + "\n\n" + rest)
  {
    PowerSectionDropped(info);
    RenderWithoutSecond(DetailSectionsAsWritten(info), DetailSections(info));
  }

  /** Rendering sections with the second one removed. */
  lemma RenderWithoutSecond(w: seq<seq<string>>, c: seq<seq<string>>)
    requires |c| >= 3 && w == c[..1] + c[2..]
    ensures Render(w) == Join(c[0], "\n") + "\n\n" + Render(w[1..])
    ensures Render(c) == Join(c[0], "\n") + "\n\n" + (Join(c[1], "\n") + "\n\n" + Render(w[1..]))
  {
    assert w[1..] == c[2..];
    assert w == [c[0]] + w[1..];
    assert c == [c[0]] + ([c[1]] + c[2..]);
    RenderCons(c[0], w[1..]);
    RenderCons(c[1], c[2..]);
    RenderCons(c[0], [c[1]] + c[2..]);
  }

  lemma JoinStartsWith(parts: seq<string>, sep: string)
    requires |parts| > 0
    ensures StartsWith(Join(parts, sep), parts[0])
  {
    if |parts| > 1 {
      var r := parts[0] + sep + Join(parts[1..], sep);
      assert r[..|parts[0]|] == parts[0];
    }
  }
}
