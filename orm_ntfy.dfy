/** The `ups_opt_ntfy` table: one row per ntfy server/topic configuration. */
module OrmNtfy {
  import opened Wrappers
  import opened Text
  import opened Dicts
  import opened Json

  /** The event types with a `notify_*` column, in column order. */
  const NTFY_EVENTS: seq<string> :=
    ["ONBATT", "ONLINE", "LOWBATT", "COMMOK", "COMMBAD", "SHUTDOWN", "REPLBATT", "NOCOMM", "NOPARENT"]

  datatype NtfyConfig = NtfyConfig(
    id: Option<int>,
    serverType: string,
    server: string,
    topic: string,
    useAuth: bool,
    username: Option<string>,
    password: Option<string>,
    priority: Option<int>,
    useTags: bool,
    isDefault: bool,
    /** The event types whose `notify_*` flag is set. */
    notify: set<string>,
    createdAt: Option<int>,
    updatedAt: Option<int>)

  /** A configuration for `topic` built from the column defaults. */
  function NewConfig(topic: string): (r: NtfyConfig)
    ensures r.server == "https://ntfy.sh" && r.priority == Some(3) && !r.useTags && !r.useAuth
    ensures forall e :: !IsEventEnabled(r, e)
  {
    NtfyConfig(None, "ntfy.sh", "https://ntfy.sh", topic, false, None, None, Some(3), false, false, {}, None, None)
  }

  /** `is_event_enabled`: the flag of a listed type, `False` for any other. */
  predicate IsEventEnabled(c: NtfyConfig, eventType: string)
  {
    eventType in NTFY_EVENTS && eventType in c.notify
  }

  /** Types outside the column list, such as FSD or the UPS-mode events,
    * are never enabled. */
  lemma UnlistedNeverEnabled(c: NtfyConfig)
    ensures !IsEventEnabled(c, "FSD") && !IsEventEnabled(c, "CAL") && !IsEventEnabled(c, "TRIM")
    ensures !IsEventEnabled(c, "BOOST") && !IsEventEnabled(c, "OFF") && !IsEventEnabled(c, "OVERLOAD")
  {
  }

  /** `to_dict`: the password is masked, unset timestamps become `None`. */
  function ToDict(c: NtfyConfig): (r: Json)
    ensures r.Obj? && |r.fields| == 21
    ensures r.fields[6] == ("password", Str(Masked(c.password)))
    ensures forall k :: 10 <= k < 19 ==> r.fields[k] == (ColumnName(NTFY_EVENTS[k - 10]), Bool(IsEventEnabled(c, NTFY_EVENTS[k - 10])))
  {
    Obj([("id", OptInt(c.id)),
         ("server_type", Str(c.serverType)),
         ("server", Str(c.server)),
         ("topic", Str(c.topic)),
         ("use_auth", Bool(c.useAuth)),
         ("username", OptStr(c.username)),
         ("password", Str(Masked(c.password))),
         ("priority", OptInt(c.priority)),
         ("use_tags", Bool(c.useTags)),
         ("is_default", Bool(c.isDefault))]
        + NotifyFields(NTFY_EVENTS, c.notify)
        + [("created_at", OptInt(c.createdAt)),
           ("updated_at", OptInt(c.updatedAt))])
  }
}
