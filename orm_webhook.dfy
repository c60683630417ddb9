/** The `ups_opt_webhook` table: one row per webhook endpoint. */
module OrmWebhook {
  import opened Wrappers
  import opened Text
  import opened Dicts
  import opened Json

  /** The event types with a `notify_*` column, in column order. */
  const WEBHOOK_EVENTS: seq<string> :=
    ["ONBATT", "ONLINE", "LOWBATT", "COMMOK", "COMMBAD", "SHUTDOWN", "REPLBATT", "NOCOMM", "NOPARENT",
     "CAL", "TRIM", "BOOST", "OFF", "OVERLOAD", "BYPASS", "NOBATT", "DATAOLD"]

  datatype WebhookConfig = WebhookConfig(
    id: Option<int>,
    name: string,
    url: string,
    authType: Option<string>,
    authUsername: Option<string>,
    authPassword: Option<string>,
    authToken: Option<string>,
    contentType: Option<string>,
    customHeaders: Option<string>,
    includeUpsData: bool,
    isDefault: bool,
    verifySsl: bool,
    /** The event types whose `notify_*` flag is set. */
    notify: set<string>,
    createdAt: Option<int>,
    updatedAt: Option<int>)

  /** A configuration built from the column defaults. */
  function NewConfig(name: string, url: string): (r: WebhookConfig)
    ensures r.authType == Some("none") && r.contentType == Some("application/json")
    ensures r.includeUpsData && r.verifySsl && !r.isDefault
    ensures forall e :: !IsEventEnabled(r, e)
  {
    WebhookConfig(None, name, url, Some("none"), None, None, None, Some("application/json"), None,
                  true, false, true, {}, None, None)
  }

  /** `is_event_enabled`: the flag of one of the 17 listed types, `False`
    * for any other. */
  predicate IsEventEnabled(c: WebhookConfig, eventType: string)
  {
    eventType in WEBHOOK_EVENTS && eventType in c.notify
  }

  /** FSD and the test pseudo-event have no column and are never enabled. */
  lemma FsdAndTestNeverEnabled(c: WebhookConfig)
    ensures !IsEventEnabled(c, "FSD") && !IsEventEnabled(c, "TEST")
  {
  }

  /** Where the three parts of a concatenated field list sit. */
  lemma ThreePartIndex(head: Dict<Json>, mid: Dict<Json>, tail: Dict<Json>)
    ensures forall k :: 0 <= k < |head| ==> (head + mid + tail)[k] == head[k]
    ensures forall k :: 0 <= k < |mid| ==> (head + mid + tail)[|head| + k] == mid[k]
    ensures forall k :: 0 <= k < |tail| ==> (head + mid + tail)[|head| + |mid| + k] == tail[k]
  {
  }

  /** The plain columns of `to_dict`, secrets masked. */
  function HeadFields(c: WebhookConfig): (r: Dict<Json>)
    ensures |r| == 12
    ensures r[5] == ("auth_password", Str(Masked(c.authPassword)))
    ensures r[6] == ("auth_token", Str(Masked(c.authToken)))
  {
    [("id", OptInt(c.id)),
     ("name", Str(c.name)),
     ("url", Str(c.url)),
     ("auth_type", OptStr(c.authType)),
     ("auth_username", OptStr(c.authUsername)),
     ("auth_password", Str(Masked(c.authPassword))),
     ("auth_token", Str(Masked(c.authToken))),
     ("content_type", OptStr(c.contentType)),
     ("custom_headers", OptStr(c.customHeaders)),
     ("include_ups_data", Bool(c.includeUpsData)),
     ("is_default", Bool(c.isDefault)),
     ("verify_ssl", Bool(c.verifySsl))]
  }

  /** The timestamps of `to_dict`, `None` when unset. */
  function StampFields(c: WebhookConfig): (r: Dict<Json>)
    ensures |r| == 2
    ensures r[0].1 == Null <==> c.createdAt.None?
    ensures r[1].1 == Null <==> c.updatedAt.None?
  {
    [("created_at", OptInt(c.createdAt)), ("updated_at", OptInt(c.updatedAt))]
  }

  /** `to_dict`: the password and the token are masked, unset timestamps
    * become `None`. */
  function ToDict(c: WebhookConfig): (r: Json)
    ensures r.Obj? && |r.fields| == 31
    ensures r.fields[5] == ("auth_password", Str(Masked(c.authPassword)))
    ensures r.fields[6] == ("auth_token", Str(Masked(c.authToken)))
    ensures r.fields[29].1 == Null <==> c.createdAt.None?
    ensures r.fields[30].1 == Null <==> c.updatedAt.None?
  {
    var head := HeadFields(c);
    var flags := NotifyFields(WEBHOOK_EVENTS, c.notify);
    var tail := StampFields(c);
    ThreePartIndex(head, flags, tail);
    Obj(head + flags + tail)
  }

  lemma ListedAt(k: int)
    requires 0 <= k < |WEBHOOK_EVENTS|
    ensures WEBHOOK_EVENTS[k] in WEBHOOK_EVENTS
  {
  }

  /** The `notify_*` entries of `to_dict` report `is_event_enabled` for
    * each listed event type, in column order. */
  lemma ToDictFlags(c: WebhookConfig)
    ensures forall k :: 12 <= k < 29 ==>
      ToDict(c).fields[k] == (ColumnName(WEBHOOK_EVENTS[k - 12]), Bool(IsEventEnabled(c, WEBHOOK_EVENTS[k - 12])))
  {
    var flags := NotifyFields(WEBHOOK_EVENTS, c.notify);
    ThreePartIndex(HeadFields(c), flags, StampFields(c));
    forall k | 12 <= k < 29
      ensures ToDict(c).fields[k] == flags[k - 12]
      ensures IsEventEnabled(c, WEBHOOK_EVENTS[k - 12]) == (WEBHOOK_EVENTS[k - 12] in c.notify)
    {
      ListedAt(k - 12);
    }
  }
}
