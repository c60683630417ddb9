/** The ntfy channel: the request `NtfyNotifier` posts for a notification,
  * the test notification and the per-event gate of the default
  * configuration. */
module Ntfy {
  import opened Wrappers
  import opened Text
  import opened Dicts
  import opened OrmNtfy
  import Json

  /** A value of the configuration dictionary the notifier is built from. */
  datatype Scalar = Nothing | Flag(b: bool) | Number(i: int) | Text(s: string)

  /** Python's truth value of a configuration value. */
  predicate Truthy(v: Scalar)
  {
    match v
    case Nothing => false
    case Flag(b) => b
    case Number(i) => i != 0
    case Text(s) => s != ""
  }

  /** Python's `str()` of a configuration value. */
  function Show(v: Scalar): (r: string)
    ensures v.Text? ==> r == v.s
    ensures v.Number? ==> ParseInt(r) == Some(v.i)
  {
    match v
    case Nothing => "None"
    case Flag(b) => if b then "True" else "False"
    case Number(i) => IntToStringRoundTrip(i); IntToString(i)
    case Text(s) => s
  }

  /** The attributes `NtfyNotifier.__init__` reads once from its
    * configuration and never changes. */
  datatype Notifier = Notifier(
    server: Scalar,
    topic: Scalar,
    useAuth: Scalar,
    username: Scalar,
    password: Scalar,
    priority: Scalar,
    useTags: Scalar)

  const DEFAULT_SERVER: string := "https://ntfy.sh"
  const DEFAULT_PRIORITY: int := 3

  /** `NtfyNotifier(config)`: each attribute is the configured value when the
    * key is present, whatever it holds, and its default otherwise. */
  function NewNotifier(config: Dict<Scalar>): (r: Notifier)
    ensures HasKey(config, "server") ==> Some(r.server) == Get(config, "server")
    ensures !HasKey(config, "server") ==> r.server == Text(DEFAULT_SERVER)
    ensures !HasKey(config, "topic") ==> r.topic == Text("")
    ensures HasKey(config, "priority") ==> Some(r.priority) == Get(config, "priority")
    ensures !HasKey(config, "priority") ==> r.priority == Number(DEFAULT_PRIORITY)
    ensures !HasKey(config, "use_tags") ==> r.useTags == Flag(true)
    ensures !HasKey(config, "use_auth") ==> r.useAuth == Flag(false)
  {
    Notifier(Get(config, "server").GetOr(Text(DEFAULT_SERVER)),
             Get(config, "topic").GetOr(Text("")),
             Get(config, "use_auth").GetOr(Flag(false)),
             Get(config, "username").GetOr(Text("")),
             Get(config, "password").GetOr(Text("")),
             Get(config, "priority").GetOr(Number(DEFAULT_PRIORITY)),
             Get(config, "use_tags").GetOr(Flag(true)))
  }

  /** An empty configuration posts to the public server with priority 3,
    * tags on and no authentication. */
  lemma EmptyConfigDefaults()
    ensures NewNotifier([]) == Notifier(Text(DEFAULT_SERVER), Text(""), Flag(false), Text(""), Text(""),
                                        Number(DEFAULT_PRIORITY), Flag(true))
  {
  }

  /** `_get_tag_for_event`: the ntfy tags of an event type, empty for the
    * types without a mapping. */
  function TagFor(eventType: string): string
  {
    match eventType
    case "ONLINE" => "white_check_mark"
    case "ONBATT" => "battery"
    case "LOWBATT" => "warning,battery"
    case "COMMOK" => "signal_strength"
    case "COMMBAD" => "no_mobile_phones"
    case "SHUTDOWN" => "sos,warning"
    case "REPLBATT" => "wrench,battery"
    case "NOCOMM" => "no_entry,warning"
    case "NOPARENT" => "ghost"
    case _ => ""
  }

  /** Exactly the event types with a `notify_*` column have tags. */
  lemma TaggedIffListed(eventType: string)
    ensures TagFor(eventType) != "" <==> eventType in NTFY_EVENTS
  {
  }

  /** The headers of one request. */
  datatype Headers = Headers(title: string, priority: string, tags: Option<string>)

  /** One POST: the URL, the message as the body, the headers and the basic
    * authentication pair. */
  datatype Request = Request(url: string, body: string, headers: Headers, auth: Option<(string, string)>)

  /** What posting gave: an HTTP answer, or an exception with its text. */
  datatype Reply = Answered(status: int, text: string) | Raised(message: string)

  datatype Outcome = Outcome(success: bool, message: string)

  /** The outcome and the request, when one was posted. */
  datatype Sent = Sent(outcome: Outcome, request: Option<Request>)

  const SENT_OK: string := "Notification sent successfully"

  /** The Priority header: the explicit priority, else the configured one,
    * as text. */
  function PriorityHeader(n: Notifier, priority: Option<int>): (r: string)
    ensures priority.Some? ==> ParseInt(r) == Some(priority.value)
    ensures priority.None? && n.priority.Number? ==> ParseInt(r) == Some(n.priority.i)
    ensures priority.None? && n.priority.Text? ==> r == n.priority.s
  {
    if priority.Some? then Show(Number(priority.value)) else Show(n.priority)
  }

  /** The Tags header: only when tags are enabled, an event type is given
    * and it has tags. */
  function TagsHeader(n: Notifier, eventType: Option<string>): (r: Option<string>)
    ensures r.Some? <==> Truthy(n.useTags) && eventType.Some? && eventType.value in NTFY_EVENTS
    ensures r.Some? ==> r.value == TagFor(eventType.value) && r.value != ""
  {
    if Truthy(n.useTags) && eventType.Some? && eventType.value != "" then
      var tag := TagFor(eventType.value);
      TaggedIffListed(eventType.value);
      if tag != "" then Some(tag) else None
    else None
  }

  /** Basic authentication: only when enabled with a username and a
    * password. */
  function BasicAuth(n: Notifier): (r: Option<(string, string)>)
    ensures r.Some? <==> Truthy(n.useAuth) && Truthy(n.username) && Truthy(n.password)
    ensures r.Some? && n.username.Text? ==> r.value.0 == n.username.s
    ensures r.Some? && n.password.Text? ==> r.value.1 == n.password.s
  {
    if Truthy(n.useAuth) && Truthy(n.username) && Truthy(n.password) then Some((Show(n.username), Show(n.password)))
    else None
  }

  /** The outcome of one reply: success exactly on 200, 201 and 202. */
  function Judge(reply: Reply): (r: Outcome)
    ensures r.success <==> reply.Answered? && reply.status in {200, 201, 202}
    ensures r.success ==> r.message == SENT_OK
    ensures reply.Answered? && !r.success ==> r.message == "Error " + IntToString(reply.status) + ": " + reply.text
    ensures reply.Raised? ==> r.message == reply.message
  {
    match reply
    case Answered(status, text) =>
      if status in {200, 201, 202} then Outcome(true, SENT_OK)
      else Outcome(false, "Error " + IntToString(status) + ": " + text)
    case Raised(m) => Outcome(false, m)
  }

  /** `send_notification`: posts the message to `<server>/<topic>`. */
  function SendNotification(n: Notifier, title: string, message: string, eventType: Option<string>,
                            priority: Option<int>, reply: Reply): (r: Sent)
    ensures r.request.Some?
    ensures r.request.value.url == Show(n.server) + "/" + Show(n.topic)
    ensures r.request.value.body == message && r.request.value.headers.title == title
    ensures r.request.value.headers.priority == PriorityHeader(n, priority)
    ensures r.request.value.headers.tags == TagsHeader(n, eventType)
    ensures r.request.value.auth == BasicAuth(n)
    ensures r.outcome == Judge(reply)
  {
    var headers := Headers(title, PriorityHeader(n, priority), TagsHeader(n, eventType));
    var url := Show(n.server) + "/" + Show(n.topic);
    Sent(Judge(reply), Some(Request(url, message, headers, BasicAuth(n))))
  }

  /** A configured integer priority travels as text that reads back as the
    * same integer. */
  lemma PriorityRoundTrip(n: Notifier, title: string, message: string, eventType: Option<string>, reply: Reply)
    requires n.priority.Number?
    ensures ParseInt(SendNotification(n, title, message, eventType, None, reply).request.value.headers.priority)
      == Some(n.priority.i)
  {
  }

  /* ---------------------------------------------------------------- */
  /* test_notification                                                 */
  /* ---------------------------------------------------------------- */

  /** The message of a test for one event type. */
  function TestMessage(eventType: string): (r: string)
    ensures eventType !in NTFY_EVENTS ==> r == "Test notification for " + eventType + " event"
  {
    match eventType
    case "ONLINE" => "Your UPS is now running on line power"
    case "ONBATT" => "Your UPS has switched to battery power"
    case "LOWBATT" => "Warning: UPS battery is running low"
    case "COMMOK" => "Communication with UPS has been restored"
    case "COMMBAD" => "Communication with UPS has been lost"
    case "SHUTDOWN" => "System shutdown is imminent due to low battery"
    case "REPLBATT" => "UPS battery needs replacement"
    case "NOCOMM" => "Cannot communicate with the UPS"
    case "NOPARENT" => "Parent process has been lost"
    case _ => "Test notification for " + eventType + " event"
  }

  const TEST_TITLE: string := "Test Notification"
  const TEST_TEXT: string := "This is a test notification from Nutify"

  /** `test_notification`: title and message for the given event type, or
    * the generic ones. */
  function TestNotification(config: Dict<Scalar>, eventType: Option<string>, reply: Reply): (r: Sent)
  {
    var n := NewNotifier(config);
    if eventType.Some? && eventType.value != "" then
      SendNotification(n, "Test: " + eventType.value, TestMessage(eventType.value), eventType, None, reply)
    else SendNotification(n, TEST_TITLE, TEST_TEXT, eventType, None, reply)
  }

  /** A test always posts; with an event type it is titled after it and
    * carries its message, otherwise it is the generic test without tags. */
  lemma TestRequest(config: Dict<Scalar>, eventType: Option<string>, reply: Reply)
    ensures var r := TestNotification(config, eventType, reply);
      && r.request.Some?
      && r.outcome == Judge(reply)
      && (eventType.Some? && eventType.value != "" ==>
            r.request.value.headers.title == "Test: " + eventType.value
            && r.request.value.body == TestMessage(eventType.value))
      && (eventType.None? || eventType.value == "" ==>
            r.request.value.headers.title == TEST_TITLE && r.request.value.body == TEST_TEXT
            && r.request.value.headers.tags.None?)
  {
  }

  /* ---------------------------------------------------------------- */
  /* send_event_notification                                           */
  /* ---------------------------------------------------------------- */

  const NO_DEFAULT: string := "No default configuration found"
  const EVENT_DISABLED: string := "Notification is disabled for this event type"

  /** The title of an event notification. */
  function EventTitle(eventType: string): (r: string)
    ensures eventType !in NTFY_EVENTS ==> r == "UPS Event: " + eventType
  {
    match eventType
    case "ONLINE" => "UPS Online"
    case "ONBATT" => "UPS On Battery"
    case "LOWBATT" => "UPS Low Battery"
    case "COMMOK" => "UPS Communication Restored"
    case "COMMBAD" => "UPS Communication Lost"
    case "SHUTDOWN" => "System Shutdown Imminent"
    case "REPLBATT" => "UPS Battery Replacement Needed"
    case "NOCOMM" => "UPS Not Reachable"
    case "NOPARENT" => "Parent Process Lost"
    case _ => "UPS Event: " + eventType
  }

  /** The `notify_<type>` flag of a configuration dictionary, false when
    * missing. */
  predicate FlagOn(config: Dict<Scalar>, eventType: string)
  {
    Truthy(Get(config, Json.ColumnName(eventType)).GetOr(Flag(false)))
  }

  /** `send_event_notification`: nothing is posted without a non-empty
    * default configuration whose flag for the event is set. */
  function SendEventNotification(eventType: string, message: string, config: Option<Dict<Scalar>>, reply: Reply)
    : (r: Sent)
    ensures r.request.Some? <==> config.Some? && config.value != [] && FlagOn(config.value, eventType)
    ensures (config.None? || config.value == []) ==> r == Sent(Outcome(false, NO_DEFAULT), None)
    ensures config.Some? && config.value != [] && !FlagOn(config.value, eventType) ==>
      r == Sent(Outcome(false, EVENT_DISABLED), None)
    ensures r.request.Some? ==> r.outcome == Judge(reply) && r.request.value.body == message
    ensures r.request.Some? ==> r.request.value.headers.title == EventTitle(eventType)
  {
    if config.None? || config.value == [] then Sent(Outcome(false, NO_DEFAULT), None)
    else if !FlagOn(config.value, eventType) then Sent(Outcome(false, EVENT_DISABLED), None)
    else SendNotification(NewNotifier(config.value), EventTitle(eventType), message, Some(eventType), None, reply)
  }
}
