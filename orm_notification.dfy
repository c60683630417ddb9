/** The `ups_opt_notification` table: one row per event type saying whether
  * an email goes out for it and through which mail configuration. */
module OrmNotification {
  import opened Wrappers
  import opened Json
  import opened Session

  datatype NotificationSetting = NotificationSetting(
    id: Option<int>,
    eventType: string,
    enabled: bool,
    idEmail: Option<int>,
    createdAt: Option<int>,
    updatedAt: Option<int>)

  /** `to_dict` */
  function ToDict(s: NotificationSetting): (r: Json)
    ensures r.Obj? && |r.fields| == 6
    ensures r.fields[1] == ("event_type", Str(s.eventType)) && r.fields[2] == ("enabled", Bool(s.enabled))
    ensures r.fields[4].1 == Null <==> s.createdAt.None?
  {
    Obj([("id", OptInt(s.id)),
         ("event_type", Str(s.eventType)),
         ("enabled", Bool(s.enabled)),
         ("id_email", OptInt(s.idEmail)),
         ("created_at", OptInt(s.createdAt)),
         ("updated_at", OptInt(s.updatedAt))])
  }

  /** The row the seeding inserts for one event type (timestamps from the
    * column defaults at insert time `now`). */
  function DefaultSetting(eventType: string, now: int): NotificationSetting
  {
    NotificationSetting(None, eventType, false, None, Some(now), Some(now))
  }

  /** The rows seeded for a list of event types, in that order. */
  function Seeded(eventTypes: seq<string>, now: int): (r: seq<NotificationSetting>)
  {
    if |eventTypes| == 0 then []
    else Seeded(eventTypes[..|eventTypes| - 1], now) + [DefaultSetting(eventTypes[|eventTypes| - 1], now)]
  }

  /** Seeding writes exactly one disabled row per event type, in order. */
  lemma {:induction false} SeededOnePerType(eventTypes: seq<string>, now: int)
    ensures |Seeded(eventTypes, now)| == |eventTypes|
    ensures forall i :: 0 <= i < |eventTypes| ==>
      Seeded(eventTypes, now)[i].eventType == eventTypes[i] && !Seeded(eventTypes, now)[i].enabled
      && Seeded(eventTypes, now)[i].idEmail.None?
  {
    if |eventTypes| > 0 {
      SeededOnePerType(eventTypes[..|eventTypes| - 1], now);
    }
  }

  /** With distinct event types, seeding yields at most one row per type, as
    * the unique `event_type` column demands. */
  lemma SeededUnique(eventTypes: seq<string>, now: int)
    requires forall i, j :: 0 <= i < j < |eventTypes| ==> eventTypes[i] != eventTypes[j]
    ensures forall i, j :: 0 <= i < j < |Seeded(eventTypes, now)| ==>
      Seeded(eventTypes, now)[i].eventType != Seeded(eventTypes, now)[j].eventType
  {
    SeededOnePerType(eventTypes, now);
  }

  /** Builds the rows seeding adds, one per event type in order. */
  method DefaultRows(eventTypes: seq<string>, now: int) returns (pending: seq<NotificationSetting>)
    ensures pending == Seeded(eventTypes, now)
  {
    pending := [];
    var i := 0;
    while i < |eventTypes|
      invariant 0 <= i <= |eventTypes|
      invariant pending == Seeded(eventTypes[..i], now)
    {
      assert eventTypes[..i + 1][..i] == eventTypes[..i];
      pending := pending + [DefaultSetting(eventTypes[i], now)];
      i := i + 1;
    }
    assert eventTypes[..i] == eventTypes;
  }

  class NotificationTable {
    var rows: seq<NotificationSetting>

    constructor (rows: seq<NotificationSetting>)
      ensures this.rows == rows
    {
      this.rows := rows;
    }

    /** `init_notification_settings`: seed one disabled row per event type,
      * only into an empty table. A commit error mentioning an already begun
      * transaction is answered by a flush (the rows stay); any other error
      * rolls the rows back. */
    method InitNotificationSettings(eventTypes: seq<string>, now: int, commit: CommitResult) returns (created: bool)
      modifies this
      ensures created <==> old(rows) == [] && SeedCommitted(commit)
      ensures rows == if created then Seeded(eventTypes, now) else old(rows)
    {
      if rows != [] {
        return false;
      }
      var pending := DefaultRows(eventTypes, now);
      if commit.None? || FlushRecovers(commit.value) {
        rows := pending;
        created := true;
      } else {
        created := false;
      }
    }
  }
}
