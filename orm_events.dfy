/** The `ups_events` table: one row per UPS event, open until its end time is set. */
module OrmEvents {
  import opened Wrappers
  import opened Json

  /** The stored columns of one event, as a value. */
  datatype EventView = EventView(
    ts: Option<int>,
    begin: Option<int>,
    end: Option<int>,
    ups: string,
    kind: string,
    message: string,
    sourceIp: Option<string>,
    acknowledged: bool)

  /** `a` comes no later than `b` under `ORDER BY timestamp_tz DESC`
    * (SQLite puts null timestamps last in descending order). */
  predicate AtLeast(a: EventView, b: EventView)
  {
    b.ts.None? || (a.ts.Some? && a.ts.value >= b.ts.value)
  }

  predicate SortedDesc(s: seq<EventView>)
  {
    forall i, j :: 0 <= i < j < |s| ==> AtLeast(s[i], s[j])
  }

  function Insert(x: EventView, s: seq<EventView>): (r: seq<EventView>)
  {
    if |s| == 0 then [x]
    else if AtLeast(x, s[0]) then [x] + s
    else [s[0]] + Insert(x, s[1..])
  }

  lemma {:induction false} InsertMultiset(x: EventView, s: seq<EventView>)
    ensures multiset(Insert(x, s)) == multiset(s) + multiset{x}
  {
    if |s| > 0 && !AtLeast(x, s[0]) {
      InsertMultiset(x, s[1..]);
      assert s == [s[0]] + s[1..];
    }
  }

  lemma {:induction false} InsertSorted(x: EventView, s: seq<EventView>)
    requires SortedDesc(s)
    ensures SortedDesc(Insert(x, s))
  {
    if |s| > 0 && !AtLeast(x, s[0]) {
      InsertSorted(x, s[1..]);
      InsertMultiset(x, s[1..]);
      var r := Insert(x, s[1..]);
      forall k | 0 <= k < |r|
        ensures AtLeast(s[0], r[k])
      {
        assert r[k] in multiset(r);
        assert r[k] == x || r[k] in s[1..];
      }
    }
  }

  /** The rows of a query in `ORDER BY timestamp_tz DESC` order; rows with
    * equal timestamps keep no particular order. */
  function ByStampDesc(s: seq<EventView>): (r: seq<EventView>)
  {
    if |s| == 0 then [] else Insert(s[0], ByStampDesc(s[1..]))
  }

  /** The ordering is a sorted permutation of the rows. */
  lemma ByStampDescSpec(s: seq<EventView>)
    ensures SortedDesc(ByStampDesc(s))
    ensures multiset(ByStampDesc(s)) == multiset(s)
  {
    ByStampDescSorted(s);
    ByStampDescPermutes(s);
  }

  lemma {:induction false} ByStampDescSorted(s: seq<EventView>)
    ensures SortedDesc(ByStampDesc(s))
  {
    if |s| > 0 {
      ByStampDescSorted(s[1..]);
      InsertSorted(s[0], ByStampDesc(s[1..]));
    }
  }

  lemma {:induction false} ByStampDescPermutes(s: seq<EventView>)
    ensures multiset(ByStampDesc(s)) == multiset(s)
  {
    if |s| > 0 {
      ByStampDescPermutes(s[1..]);
      InsertMultiset(s[0], ByStampDesc(s[1..]));
      assert s == [s[0]] + s[1..];
    }
  }

  /** The rows satisfying `p`, in table order. */
  function Filter(s: seq<EventView>, p: EventView -> bool): (r: seq<EventView>)
    ensures |r| <= |s|
    ensures forall v :: v in r <==> v in s && p(v)
  {
    if |s| == 0 then []
    else if p(s[0]) then [s[0]] + Filter(s[1..], p)
    else Filter(s[1..], p)
  }

  /** `.order_by(timestamp_tz.desc()).first()` over the rows satisfying `p`. */
  function Latest(s: seq<EventView>, p: EventView -> bool): (r: Option<EventView>)
    ensures r.None? <==> forall v :: v in s ==> !p(v)
    ensures r.Some? ==> r.value in s && p(r.value) && forall v :: v in s && p(v) ==> AtLeast(r.value, v)
  {
    var sorted := ByStampDesc(Filter(s, p));
    ByStampDescSpec(Filter(s, p));
    if |sorted| == 0 then
      assert forall v :: v in Filter(s, p) ==> v in multiset(sorted);
      None
    else
      assert sorted[0] in multiset(Filter(s, p));
      assert sorted[0] in Filter(s, p);
      assert forall v :: v in Filter(s, p) ==> v in multiset(sorted);
      Some(sorted[0])
  }

  class UPSEvent {
    var id: Option<int>
    var timestampTz: Option<int>
    var timestampTzBegin: Option<int>
    /** `None` while the event is still open. */
    var timestampTzEnd: Option<int>
    var upsName: string
    var eventType: string
    var eventMessage: string
    var sourceIp: Option<string>
    var acknowledged: bool

    /** The ORM constructor: keyword arguments are optional; when neither
      * timestamp is given both get the same current time `now`.
      * `acknowledged` falls back to its column default, `False`. */
    constructor (timestampTz: Option<int>, timestampTzBegin: Option<int>, upsName: string, eventType: string,
                 eventMessage: string, sourceIp: Option<string>, acknowledged: Option<bool>, now: int)
      ensures id.None? && timestampTzEnd.None?
      ensures timestampTz.None? && timestampTzBegin.None? ==>
        this.timestampTz == Some(now) && this.timestampTzBegin == Some(now)
      ensures timestampTz.Some? || timestampTzBegin.Some? ==>
        this.timestampTz == timestampTz && this.timestampTzBegin == timestampTzBegin
      ensures this.upsName == upsName && this.eventType == eventType && this.eventMessage == eventMessage
      ensures this.sourceIp == sourceIp
      ensures this.acknowledged == acknowledged.GetOr(false)
    {
      id := None;
      this.timestampTz := timestampTz;
      this.timestampTzBegin := timestampTzBegin;
      timestampTzEnd := None;
      this.upsName := upsName;
      this.eventType := eventType;
      this.eventMessage := eventMessage;
      this.sourceIp := sourceIp;
      this.acknowledged := acknowledged.GetOr(false);
      new;
      if timestampTz.None? && timestampTzBegin.None? {
        this.timestampTz := Some(now);
        this.timestampTzBegin := Some(now);
      }
    }

    function View(): EventView
      reads this
    {
      EventView(timestampTz, timestampTzBegin, timestampTzEnd, upsName, eventType, eventMessage, sourceIp, acknowledged)
    }

    predicate IsOpen()
      reads this
    {
      timestampTzEnd.None?
    }

    /** `to_dict`: unset timestamps become `None`, every other field is copied. */
    function ToDict(): (r: Json)
      reads this
      ensures r.Obj? && |r.fields| == 9
      ensures r.fields[0] == ("id", OptInt(id))
      ensures r.fields[1] == ("timestamp", OptInt(timestampTz))
      ensures r.fields[2] == ("timestamp_begin", OptInt(timestampTzBegin))
      ensures r.fields[3] == ("timestamp_end", OptInt(timestampTzEnd))
      ensures r.fields[3].1 == Null <==> IsOpen()
      ensures r.fields[4] == ("ups_name", Str(upsName))
      ensures r.fields[5] == ("event_type", Str(eventType))
      ensures r.fields[6] == ("event_message", Str(eventMessage))
      ensures r.fields[7] == ("source_ip", OptStr(sourceIp))
      ensures r.fields[8] == ("acknowledged", Bool(acknowledged))
    {
      Obj([("id", OptInt(id)),
           ("timestamp", OptInt(timestampTz)),
           ("timestamp_begin", OptInt(timestampTzBegin)),
           ("timestamp_end", OptInt(timestampTzEnd)),
           ("ups_name", Str(upsName)),
           ("event_type", Str(eventType)),
           ("event_message", Str(eventMessage)),
           ("source_ip", OptStr(sourceIp)),
           ("acknowledged", Bool(acknowledged))])
    }
  }
}
