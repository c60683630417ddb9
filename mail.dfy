/** Email notifications: the msmtp configuration text, saving SMTP settings,
  * choosing the configuration and recipient for an event, the test-send
  * cooldown and the runtime texts shown in the messages. */
module Mail {
  import opened Wrappers
  import opened Text
  import opened Cipher
  import opened Session
  import opened OrmEvents
  import opened OrmNotification
  import opened OrmMailConfig
  import opened Dicts

  /* ---------------------------------------------------------------- */
  /* msmtp configuration                                               */
  /* ---------------------------------------------------------------- */

  /** The `config_data` handed to `get_msmtp_config`. Values are the text
    * Python's f-strings produce for them; an absent optional key is `None`. */
  datatype MsmtpSettings = MsmtpSettings(
    smtpServer: string,
    smtpPort: string,
    username: string,
    password: Option<string>,
    fromEmail: Option<string>,
    tls: Option<bool>,
    tlsStarttls: Option<bool>)

  const PASSWORD_REQUIRED: string := "Password is required for SMTP configuration"

  function TlsLines(useTls: bool, certPath: string): seq<string>
  {
    if useTls then ["tls            on", "tls_trust_file " + certPath] else ["tls            off"]
  }

  function StarttlsLines(useTls: bool, useStarttls: bool): seq<string>
  {
    if useTls then ["", if useStarttls then "tls_starttls   on" else "tls_starttls   off"] else []
  }

  function AccountLines(c: MsmtpSettings, password: string): (r: seq<string>)
    ensures |r| == 8
  {
    ["logfile        ~/.msmtp.log",
     "",
     "account        default",
     "host           " + c.smtpServer,
     "port           " + c.smtpPort,
     "from           " + c.fromEmail.GetOr(c.username),
     "user           " + c.username,
     "password       " + password]
  }

  /** The lines of the msmtp configuration `get_msmtp_config` writes, or the
    * `ValueError` it raises when the password is missing. `certPath` is the
    * configured `TLS_CERT_PATH`. */
  function MsmtpLines(c: MsmtpSettings, certPath: string): (r: Result<seq<string>>)
    ensures r.Err? <==> c.password.None?
    ensures r.Err? ==> r.error == PASSWORD_REQUIRED
  {
    if c.password.None? then Err(PASSWORD_REQUIRED)
    else
      var useTls := c.tls.GetOr(true);
      Ok(["", "# Configuration for msmtp", "defaults", "auth           on"]
         + TlsLines(useTls, certPath)
         + AccountLines(c, c.password.value)
         + StarttlsLines(useTls, c.tlsStarttls.GetOr(true)))
  }

  /** Each line followed by a newline. */
  function Unlines(ls: seq<string>): string
  {
    if |ls| == 0 then "" else ls[0] + "\n" + Unlines(ls[1..])
  }

  /** `get_msmtp_config`: the configuration file's text. */
  function GetMsmtpConfig(c: MsmtpSettings, certPath: string): (r: Result<string>)
    ensures r.Err? <==> c.password.None?
    ensures r.Err? ==> r.error == PASSWORD_REQUIRED
    ensures r.Ok? ==> r.value == Unlines(MsmtpLines(c, certPath).value)
  {
    match MsmtpLines(c, certPath)
    case Err(e) => Err(e)
    case Ok(ls) => Ok(Unlines(ls))
  }

  /** The number of lines that start with `p`. */
  function CountStarting(ls: seq<string>, p: string): nat
  {
    if |ls| == 0 then 0 else (if StartsWith(ls[0], p) then 1 else 0) + CountStarting(ls[1..], p)
  }

  lemma {:induction false} CountStartingConcat(a: seq<string>, b: seq<string>, p: string)
    ensures CountStarting(a + b, p) == CountStarting(a, p) + CountStarting(b, p)
  {
    if |a| > 0 {
      assert (a + b)[0] == a[0];
      assert (a + b)[1..] == a[1..] + b;
      CountStartingConcat(a[1..], b, p);
      assert CountStarting(a + b, p) == (if StartsWith(a[0], p) then 1 else 0) + CountStarting(a[1..] + b, p);
    } else {
      assert a + b == b;
    }
  }

  /** No line that does not start with `p` makes a line that does. */
  lemma AccountLinesNoStarttls(c: MsmtpSettings, password: string)
    ensures CountStarting(AccountLines(c, password), "tls") == 0
  {
    var ls := AccountLines(c, password);
    assert forall i :: 0 <= i < |ls| ==> |ls[i]| == 0 || ls[i][0] != 't';
    var k := 0;
    while k < |ls|
      invariant 0 <= k <= |ls|
      invariant CountStarting(ls[|ls| - k..], "tls") == 0
    {
      var j := |ls| - k - 1;
      assert ls[j..] == [ls[j]] + ls[|ls| - k..];
      assert !StartsWith(ls[j], "tls");
      k := k + 1;
    }
    assert ls[0..] == ls;
  }

  const HEAD_LINES: seq<string> := ["", "# Configuration for msmtp", "defaults", "auth           on"]

  /** A line whose first characters differ from `p` does not start with it. */
  lemma DiffersAt(line: string, p: string, i: nat)
    requires i < |line| && i < |p| && line[i] != p[i]
    ensures !StartsWith(line, p)
  {
    if |p| <= |line| {
      assert line[..|p|][i] == line[i];
    }
  }

  lemma HeadLinesNoTls()
    ensures CountStarting(HEAD_LINES, "tls") == 0
  {
    var h := HEAD_LINES;
    DiffersAt(h[1], "tls", 0);
    DiffersAt(h[2], "tls", 0);
    DiffersAt(h[3], "tls", 0);
    assert h[1..][1..][1..][1..] == [];
  }

  lemma TlsLinesCount(useTls: bool, certPath: string)
    ensures CountStarting(TlsLines(useTls, certPath), "tls") == if useTls then 2 else 1
    ensures CountStarting(TlsLines(useTls, certPath), "tls_starttls") == 0
  {
    var t := TlsLines(useTls, certPath);
    assert t[0][..3] == "tls";
    DiffersAt(t[0], "tls_starttls", 3);
    if useTls {
      assert t[1][..3] == "tls";
      DiffersAt(t[1], "tls_starttls", 5);
      assert t[1..][1..] == [];
      assert CountStarting(t[1..], "tls") == 1;
      assert CountStarting(t[1..], "tls_starttls") == 0;
    } else {
      assert t[1..] == [];
    }
  }

  lemma StarttlsLinesCount(useTls: bool, useStarttls: bool)
    ensures CountStarting(StarttlsLines(useTls, useStarttls), "tls") == if useTls then 1 else 0
    ensures CountStarting(StarttlsLines(useTls, useStarttls), "tls_starttls") == if useTls then 1 else 0
  {
    var t := StarttlsLines(useTls, useStarttls);
    if useTls {
      assert t[1][..12] == "tls_starttls";
      assert t[1][..3] == "tls";
      assert t[1..][1..] == [];
      assert CountStarting(t[1..], "tls") == 1;
      assert CountStarting(t[1..], "tls_starttls") == 1;
    }
  }

  /** The file is the four opening lines, the TLS block, the account block
    * and the STARTTLS block. */
  lemma MsmtpBlocks(c: MsmtpSettings, certPath: string)
    requires c.password.Some?
    ensures MsmtpLines(c, certPath).value ==
      HEAD_LINES + TlsLines(c.tls.GetOr(true), certPath) + AccountLines(c, c.password.value)
      + StarttlsLines(c.tls.GetOr(true), c.tlsStarttls.GetOr(true))
  {
  }

  /** With TLS on the file carries exactly one STARTTLS line and three lines
    * about TLS in all ("tls on", the trust file, STARTTLS); with TLS off it
    * has no STARTTLS line and the single line "tls off". */
  lemma MsmtpTlsCounts(c: MsmtpSettings, certPath: string)
    requires c.password.Some?
    ensures CountStarting(MsmtpLines(c, certPath).value, "tls_starttls") == (if c.tls.GetOr(true) then 1 else 0)
    ensures CountStarting(MsmtpLines(c, certPath).value, "tls") == (if c.tls.GetOr(true) then 3 else 1)
  {
    var useTls := c.tls.GetOr(true);
    var tl := TlsLines(useTls, certPath);
    var acc := AccountLines(c, c.password.value);
    var st := StarttlsLines(useTls, c.tlsStarttls.GetOr(true));
    MsmtpBlocks(c, certPath);
    CountStartingConcat(HEAD_LINES + tl + acc, st, "tls");
    CountStartingConcat(HEAD_LINES + tl, acc, "tls");
    CountStartingConcat(HEAD_LINES, tl, "tls");
    CountStartingConcat(HEAD_LINES + tl + acc, st, "tls_starttls");
    CountStartingConcat(HEAD_LINES + tl, acc, "tls_starttls");
    CountStartingConcat(HEAD_LINES, tl, "tls_starttls");
    HeadLinesNoTls();
    CountStartingWeaker(HEAD_LINES, "tls", "tls_starttls");
    AccountLinesNoStarttls(c, c.password.value);
    CountStartingWeaker(acc, "tls", "tls_starttls");
    TlsLinesCount(useTls, certPath);
    StarttlsLinesCount(useTls, c.tlsStarttls.GetOr(true));
  }

  /** Where the TLS switch, the trust file, the sender and the STARTTLS
    * choice appear; the sender defaults to the username. */
  lemma MsmtpTlsLines(c: MsmtpSettings, certPath: string)
    requires c.password.Some?
    ensures var ls := MsmtpLines(c, certPath).value;
      |ls| == (if c.tls.GetOr(true) then 16 else 13)
      && ls[4] == (if c.tls.GetOr(true) then "tls            on" else "tls            off")
      && (c.tls.GetOr(true) ==> ls[5] == "tls_trust_file " + certPath)
      && (c.tls.GetOr(true) ==> ls[15] == (if c.tlsStarttls.GetOr(true) then "tls_starttls   on" else "tls_starttls   off"))
      && ls[if c.tls.GetOr(true) then 11 else 10] == "from           " + c.fromEmail.GetOr(c.username)
  {
    MsmtpBlocks(c, certPath);
  }

  /** Lines starting with a longer prefix are among those starting with a shorter one. */
  lemma {:induction false} CountStartingWeaker(ls: seq<string>, p: string, q: string)
    requires StartsWith(q, p)
    ensures CountStarting(ls, q) <= CountStarting(ls, p)
  {
    if |ls| > 0 {
      CountStartingWeaker(ls[1..], p, q);
    }
  }

  /* ---------------------------------------------------------------- */
  /* Test-send cooldown                                                */
  /* ---------------------------------------------------------------- */

  /** `_test_notification_cooldown`, in seconds. */
  const TEST_COOLDOWN: real := 2.0

  const WAIT_MESSAGE: string := "Please wait a few seconds before sending another test notification"

  /** A test send at `now` is let through after one accepted at `last`. */
  predicate Admits(last: real, now: real)
  {
    now - last >= TEST_COOLDOWN
  }

  /** The calls a sequence of test requests lets through, starting from the
    * stored time `last`. */
  function AcceptedCalls(last: real, calls: seq<real>): (r: seq<real>)
    ensures |r| <= |calls|
    decreases |calls|
  {
    if |calls| == 0 then []
    else if Admits(last, calls[0]) then [calls[0]] + AcceptedCalls(calls[0], calls[1..])
    else AcceptedCalls(last, calls[1..])
  }

  /** Accepted test sends are at least the cooldown apart, and the first is
    * at least the cooldown after the stored time. */
  lemma {:induction false} AcceptedCallsSpaced(last: real, calls: seq<real>)
    ensures var acc := AcceptedCalls(last, calls);
      (|acc| > 0 ==> acc[0] - last >= TEST_COOLDOWN) &&
      forall i :: 0 <= i < |acc| - 1 ==> acc[i + 1] - acc[i] >= TEST_COOLDOWN
    decreases |calls|
  {
    if |calls| > 0 {
      if Admits(last, calls[0]) {
        AcceptedCallsSpaced(calls[0], calls[1..]);
        var rest := AcceptedCalls(calls[0], calls[1..]);
        var acc := AcceptedCalls(last, calls);
        assert acc == [calls[0]] + rest;
        forall i | 0 <= i < |acc| - 1
          ensures acc[i + 1] - acc[i] >= TEST_COOLDOWN
        {
          if i > 0 {
            assert acc[i] == rest[i - 1] && acc[i + 1] == rest[i];
          }
        }
      } else {
        AcceptedCallsSpaced(last, calls[1..]);
      }
    }
  }

  /* ---------------------------------------------------------------- */
  /* Saving a mail configuration                                       */
  /* ---------------------------------------------------------------- */

  /** The `smtp_port` value sent by the client. */
  datatype PortValue = PortNum(n: int) | PortText(s: string) | PortNull

  /** The `config_data` of `save_mail_config`; `None` is an absent key. */
  datatype MailInput = MailInput(
    id: Option<int>,
    updateEnabledOnly: bool,
    enabled: Option<bool>,
    smtpServer: Option<string>,
    smtpPort: Option<PortValue>,
    username: Option<string>,
    password: Option<string>,
    provider: Option<string>,
    tls: Option<bool>,
    tlsStarttls: Option<bool>,
    toEmail: Option<string>)

  const UNDECRYPTABLE: string :=
    "Stored password cannot be decrypted with the current encryption key. Please enter a new password."

  /** The text of the `IntegrityError` a commit raises when `smtp_server` or
    * `smtp_port` is null. */
  const NOT_NULL_FAILED: string := "NOT NULL constraint failed"

  /** The text of the `TypeError` `int(None)` raises. */
  const INT_OF_NONE: string := "int() argument must be a string, a bytes-like object or a real number, not 'NoneType'"

  /** A truthy id: present and non-zero. */
  predicate HasId(id: Option<int>)
  {
    id.Some? && id.value != 0
  }

  function Ids(rows: seq<MailView>): (r: seq<int>)
    ensures |r| == |rows| && forall i :: 0 <= i < |rows| ==> r[i] == rows[i].id
  {
    seq(|rows|, i requires 0 <= i < |rows| => rows[i].id)
  }

  /** Every stored row has a distinct id and the two non-null columns set. */
  predicate ValidRows(rows: seq<MailView>)
  {
    (forall i, j :: 0 <= i < j < |rows| ==> rows[i].id != rows[j].id)
    && forall i :: 0 <= i < |rows| ==> rows[i].smtpServer.Some? && rows[i].smtpPort.Some?
  }

  /** A number above every id. */
  function IdBound(ids: seq<int>): (r: int)
    ensures forall i :: 0 <= i < |ids| ==> ids[i] < r
  {
    if |ids| == 0 then 0
    else var b := IdBound(ids[1..]); if ids[0] < b then b else ids[0] + 1
  }

  /** The smallest number from `n` on that is not in `ids`. */
  function FirstFree(ids: seq<int>, n: int): (r: int)
    ensures r >= n && r !in ids
    ensures forall j :: n <= j < r ==> j in ids
    decreases IdBound(ids) - n
  {
    if n in ids then FirstFree(ids, n + 1) else n
  }

  /** `query.get(id)`: the position of the row with that id. */
  function IndexOfId(rows: seq<MailView>, id: int): (r: Option<nat>)
    ensures r.None? <==> forall i :: 0 <= i < |rows| ==> rows[i].id != id
    ensures r.Some? ==> r.value < |rows| && rows[r.value].id == id
  {
    if |rows| == 0 then None
    else if rows[0].id == id then Some(0)
    else match IndexOfId(rows[1..], id)
      case None => None
      case Some(i) => Some(i + 1)
  }

  /** The port column after `int(value)`, with `ValueError` giving null. */
  function PortColumn(v: PortValue): Option<int>
    requires !v.PortNull?
  {
    match v
    case PortNum(n) => Some(n)
    case PortText(s) => ParseInt(s)
  }

  /** The allowed keys copied onto the row; an empty password is skipped. */
  function ApplyFields(row: MailView, input: MailInput, k: Key): (r: MailView)
    requires !(input.smtpPort.Some? && input.smtpPort.value.PortNull?)
    ensures r.id == row.id && r.isDefault == row.isDefault
  {
    var row1 := CopyFields(row, input);
    if input.password.Some? && input.password.value != "" then row1.WithPassword(k, input.password) else row1
  }

  /** The allowed keys other than the password. */
  function CopyFields(row: MailView, input: MailInput): (r: MailView)
    requires !(input.smtpPort.Some? && input.smtpPort.value.PortNull?)
    ensures r.id == row.id && r.isDefault == row.isDefault && r.storedPassword == row.storedPassword
  {
    row.(
      smtpServer := if input.smtpServer.Some? then input.smtpServer else row.smtpServer,
      smtpPort := if input.smtpPort.Some? then PortColumn(input.smtpPort.value) else row.smtpPort,
      username := if input.username.Some? then input.username else row.username,
      enabled := input.enabled.GetOr(row.enabled),
      provider := if input.provider.Some? then input.provider else row.provider,
      tls := input.tls.GetOr(row.tls),
      tlsStarttls := input.tlsStarttls.GetOr(row.tlsStarttls),
      toEmail := if input.toEmail.Some? then input.toEmail else row.toEmail)
  }

  /** The commit: the NOT NULL columns are checked, then the database may
    * still refuse with `dbError`; a refusal rolls back. */
  function Commit(rows: seq<MailView>, at: Option<nat>, row: MailView, dbError: CommitResult): (r: (Result<int>, seq<MailView>))
    requires at.Some? ==> at.value < |rows|
  {
    if row.smtpServer.None? || row.smtpPort.None? then (Err(NOT_NULL_FAILED), rows)
    else if dbError.Some? then (Err(dbError.value), rows)
    else (Ok(row.id), if at.Some? then rows[at.value := row] else rows + [row])
  }

  /** `save_mail_config` on the table `rows`: the outcome and the rows after it. */
  function Save(rows: seq<MailView>, input: MailInput, k: Key, dbError: CommitResult): (r: (Result<int>, seq<MailView>))
    ensures r.0.Err? ==> r.1 == rows
  {
    var id := if HasId(input.id) then input.id.value else FirstFree(Ids(rows), 1);
    var at := if HasId(input.id) then IndexOfId(rows, id) else None;
    var row := if at.Some? then rows[at.value] else NewRow(id);
    if input.updateEnabledOnly then
      Commit(rows, at, row.(enabled := input.enabled.GetOr(false)), dbError)
    else if (input.password.None? || input.password.value == "") && row.Password(k).Some? && row.Password(k).value.Err? then
      (Err(UNDECRYPTABLE), rows)
    else if input.smtpPort.Some? && input.smtpPort.value.PortNull? then
      (Err(INT_OF_NONE), rows)
    else
      Commit(rows, at, ApplyFields(row, input, k), dbError)
  }

  /** Without an id the new row takes the smallest positive id not in use. */
  lemma SaveAllocatesFirstFreeId(rows: seq<MailView>, input: MailInput, k: Key, dbError: CommitResult)
    requires !HasId(input.id)
    requires Save(rows, input, k, dbError).0.Ok?
    ensures var id := Save(rows, input, k, dbError).0.value;
      id >= 1 && id !in Ids(rows) && (forall j :: 1 <= j < id ==> j in Ids(rows))
      && |Save(rows, input, k, dbError).1| == |rows| + 1
      && Save(rows, input, k, dbError).1[..|rows|] == rows
      && Save(rows, input, k, dbError).1[|rows|].id == id
  {
  }

  /** `update_enabled_only` on a stored row changes its `enabled` flag and nothing else. */
  lemma EnabledOnlyChangesEnabled(rows: seq<MailView>, input: MailInput, k: Key, i: nat)
    requires ValidRows(rows) && i < |rows|
    requires input.updateEnabledOnly && HasId(input.id) && rows[i].id == input.id.value
    ensures Save(rows, input, k, None) == (Ok(rows[i].id), rows[i := rows[i].(enabled := input.enabled.GetOr(false))])
  {
    assert IndexOfId(rows, input.id.value) == Some(i);
  }

  /** `update_enabled_only` for an id not yet stored creates a row without
    * server and port, which the commit refuses. */
  lemma EnabledOnlyOnNewRowFails(rows: seq<MailView>, input: MailInput, k: Key, dbError: CommitResult)
    requires input.updateEnabledOnly
    requires !HasId(input.id) || forall i :: 0 <= i < |rows| ==> rows[i].id != input.id.value
    ensures Save(rows, input, k, dbError) == (Err(NOT_NULL_FAILED), rows)
  {
  }

  /** A save without a new password keeps the stored one. */
  lemma EmptyPasswordKeepsStored(rows: seq<MailView>, input: MailInput, k: Key, i: nat)
    requires ValidRows(rows) && i < |rows|
    requires HasId(input.id) && rows[i].id == input.id.value
    requires input.password.None? || input.password.value == ""
    requires Save(rows, input, k, None).0.Ok?
    ensures Save(rows, input, k, None).1[i].storedPassword == rows[i].storedPassword
  {
    assert IndexOfId(rows, input.id.value) == Some(i);
  }

  /** A non-empty new password is stored so that reading it back gives it. */
  lemma NewPasswordReadsBack(rows: seq<MailView>, input: MailInput, k: Key, i: nat)
    requires ValidRows(rows) && i < |rows|
    requires HasId(input.id) && rows[i].id == input.id.value
    requires !input.updateEnabledOnly && input.password.Some? && input.password.value != ""
    requires Save(rows, input, k, None).0.Ok?
    ensures Save(rows, input, k, None).1[i].Password(k) == Some(Ok(input.password.value))
  {
    assert IndexOfId(rows, input.id.value) == Some(i);
  }

  /** Without a new password, a stored password that no longer decrypts
    * stops the save with its own message. */
  lemma UndecryptableStops(rows: seq<MailView>, input: MailInput, k: Key, dbError: CommitResult, i: nat)
    requires ValidRows(rows) && i < |rows|
    requires HasId(input.id) && rows[i].id == input.id.value && !input.updateEnabledOnly
    requires input.password.None? || input.password.value == ""
    requires rows[i].storedPassword.Some? && rows[i].storedPassword.value.sealedWith != k.material
    ensures Save(rows, input, k, dbError) == (Err(UNDECRYPTABLE), rows)
  {
    assert IndexOfId(rows, input.id.value) == Some(i);
  }

  /** A port that is not an integer is stored as null, so the commit fails. */
  lemma NonIntegerPortFails(rows: seq<MailView>, input: MailInput, k: Key, dbError: CommitResult)
    requires !input.updateEnabledOnly
    requires input.smtpPort.Some? && input.smtpPort.value.PortText? && ParseInt(input.smtpPort.value.s).None?
    ensures Save(rows, input, k, dbError).0.Err?
  {
  }

  /** Saving keeps ids distinct and the non-null columns set. */
  lemma SaveKeepsRowsValid(rows: seq<MailView>, input: MailInput, k: Key, dbError: CommitResult)
    requires ValidRows(rows)
    ensures ValidRows(Save(rows, input, k, dbError).1)
  {
    var r := Save(rows, input, k, dbError);
    if r.0.Ok? && !HasId(input.id) {
      var id := FirstFree(Ids(rows), 1);
      assert forall i :: 0 <= i < |rows| ==> rows[i].id == Ids(rows)[i];
      assert forall i :: 0 <= i < |rows| ==> rows[i].id != id;
    }
  }

  /** The `ups_opt_mail_config` table. */
  class MailTable {
    var rows: seq<MailView>

    constructor (rows: seq<MailView>)
      ensures this.rows == rows
    {
      this.rows := rows;
    }

    predicate Valid()
      reads this
    {
      ValidRows(rows)
    }

    /** The id scan of `save_mail_config`: counts up from 1 while the id is taken. */
    static method FirstFreeId(ids: seq<int>) returns (next: int)
      ensures next == FirstFree(ids, 1)
    {
      next := 1;
      while next in ids
        invariant next >= 1 && FirstFree(ids, next) == FirstFree(ids, 1)
        decreases IdBound(ids) - next
      {
        next := next + 1;
      }
    }

    /** `save_mail_config`: returns the saved id or the failure message; a
      * failure leaves the table as it was. */
    method SaveMailConfig(input: MailInput, k: Key, dbError: CommitResult) returns (r: Result<int>)
      requires Valid()
      modifies this
      ensures Valid()
      ensures (r, rows) == Save(old(rows), input, k, dbError)
    {
      SaveKeepsRowsValid(rows, input, k, dbError);
      var id: int;
      var at: Option<nat>;
      if HasId(input.id) {
        id := input.id.value;
        at := IndexOfId(rows, id);
      } else {
        id := FirstFreeId(Ids(rows));
        at := None;
      }
      var config := if at.Some? then rows[at.value] else NewRow(id);
      if input.updateEnabledOnly {
        config := config.(enabled := input.enabled.GetOr(false));
        r := CommitRow(at, config, dbError);
        return;
      }
      if input.password.None? || input.password.value == "" {
        var stored := config.Password(k);
        if stored.Some? && stored.value.Err? {
          return Err(UNDECRYPTABLE);
        }
      }
      if input.smtpPort.Some? && input.smtpPort.value.PortNull? {
        return Err(INT_OF_NONE);
      }
      config := ApplyFields(config, input, k);
      r := CommitRow(at, config, dbError);
    }

    method CommitRow(at: Option<nat>, row: MailView, dbError: CommitResult) returns (r: Result<int>)
      requires at.Some? ==> at.value < |rows|
      modifies this
      ensures (r, rows) == Commit(old(rows), at, row, dbError)
    {
      if row.smtpServer.None? || row.smtpPort.None? {
        return Err(NOT_NULL_FAILED);
      }
      if dbError.Some? {
        return Err(dbError.value);
      }
      if at.Some? {
        rows := rows[at.value := row];
      } else {
        rows := rows + [row];
      }
      r := Ok(row.id);
    }
  }

  /* ---------------------------------------------------------------- */
  /* Sending one email                                                 */
  /* ---------------------------------------------------------------- */

  /** What running msmtp gave: its exit code and error output, or the
    * exception raised while preparing or starting it. */
  datatype ProcessResult = Exited(code: int, stderr: string) | Raised(message: string)

  /** `to_addr`: one address or a list of them. */
  datatype ToAddr = Single(addr: Option<string>) | Many(addrs: seq<Option<string>>)

  /** The `smtp_settings` of `send_email`, as text. */
  datatype SmtpSettings = SmtpSettings(
    host: string,
    port: string,
    username: string,
    password: Option<string>,
    useTls: bool,
    fromAddr: string,
    tlsStarttls: bool)

  /** A `(success, message)` pair. */
  datatype Outcome = Outcome(success: bool, message: string)

  const NO_RECIPIENT: string := "No recipient email address provided"
  const EMAIL_SENT: string := "Email sent successfully"

  /** `not to_addr`: no address, an empty one or an empty list. */
  predicate NoRecipient(to: ToAddr)
  {
    to == Single(None) || to == Single(Some("")) || to == Many([])
  }

  /** The position of the first absent address of a recipient list. */
  function FirstAbsent(addrs: seq<Option<string>>): (r: Option<nat>)
    ensures r.Some? <==> exists i :: 0 <= i < |addrs| && addrs[i].None?
    ensures r.Some? ==> r.value < |addrs| && addrs[r.value].None?
    ensures r.Some? ==> forall j :: 0 <= j < r.value ==> addrs[j].Some?
  {
    if |addrs| == 0 then None
    else if addrs[0].None? then Some(0)
    else
      var rest := FirstAbsent(addrs[1..]);
      if rest.None? then
        assert forall i :: 0 < i < |addrs| ==> addrs[i] == addrs[1..][i - 1];
        None
      else
        assert forall j :: 0 < j < rest.value + 1 ==> addrs[j] == addrs[1..][j - 1];
        Some(rest.value + 1)
  }

  /** The error `", ".join(to_addr)` raises on an absent address at `i`. */
  function JoinError(i: nat): string
  {
    "sequence item " + NatToString(i) + ": expected str instance, NoneType found"
  }

  /** A recipient list holding an absent address, which the `To` header
    * cannot be joined from. */
  predicate HasAbsent(to: ToAddr)
  {
    to.Many? && exists i :: 0 <= i < |to.addrs| && to.addrs[i].None?
  }

  function MsmtpFor(smtp: SmtpSettings): MsmtpSettings
  {
    MsmtpSettings(smtp.host, smtp.port, smtp.username, smtp.password, Some(smtp.fromAddr), Some(smtp.useTls),
                  Some(smtp.tlsStarttls))
  }

  /** `send_email`: the recipient check (an empty list is already caught by
    * it, so the separate empty-list check never fires), the `To` header
    * (joining a list with an absent address raises), the msmtp
    * configuration, then the outcome of running msmtp. */
  function SendEmail(to: ToAddr, smtp: SmtpSettings, certPath: string, run: ProcessResult): (r: Outcome)
    ensures NoRecipient(to) ==> r == Outcome(false, NO_RECIPIENT)
    ensures !NoRecipient(to) && HasAbsent(to) ==>
      r == Outcome(false, "Error sending email: " + JoinError(FirstAbsent(to.addrs).value))
    ensures r.success <==>
      !NoRecipient(to) && !HasAbsent(to) && smtp.password.Some? && run.Exited? && run.code == 0
    ensures r.success ==> r.message == EMAIL_SENT
    ensures !NoRecipient(to) && !HasAbsent(to) && smtp.password.None? ==>
      r.message == "Error sending email: " + PASSWORD_REQUIRED
    ensures !NoRecipient(to) && !HasAbsent(to) && smtp.password.Some? && run.Exited? && run.code != 0 ==>
      r.message == "Failed to send email: " + (if run.stderr != "" then run.stderr else "Unknown error")
  {
    if NoRecipient(to) then Outcome(false, NO_RECIPIENT)
    else if to.Many? && FirstAbsent(to.addrs).Some? then
      Outcome(false, "Error sending email: " + JoinError(FirstAbsent(to.addrs).value))
    else match GetMsmtpConfig(MsmtpFor(smtp), certPath)
      case Err(e) => Outcome(false, "Error sending email: " + e)
      case Ok(_) =>
        match run
        case Raised(m) => Outcome(false, "Error sending email: " + m)
        case Exited(code, stderr) =>
          if code == 0 then Outcome(true, EMAIL_SENT)
          else Outcome(false, "Failed to send email: " + (if stderr != "" then stderr else "Unknown error"))
  }

  /* ---------------------------------------------------------------- */
  /* EmailNotifier.send_notification                                   */
  /* ---------------------------------------------------------------- */

  /** `EmailNotifier.TEMPLATE_MAP`. */
  const TEMPLATE_MAP: Dict<string> := [
    ("ONLINE", "mail/online_notification.html"),
    ("ONBATT", "mail/onbatt_notification.html"),
    ("LOWBATT", "mail/lowbatt_notification.html"),
    ("COMMOK", "mail/commok_notification.html"),
    ("COMMBAD", "mail/commbad_notification.html"),
    ("SHUTDOWN", "mail/shutdown_notification.html"),
    ("REPLBATT", "mail/replbatt_notification.html"),
    ("NOCOMM", "mail/nocomm_notification.html"),
    ("NOPARENT", "mail/noparent_notification.html")]

  /** The event types that have an email template, in map order. */
  const TEMPLATE_TYPES: seq<string> :=
    ["ONLINE", "ONBATT", "LOWBATT", "COMMOK", "COMMBAD", "SHUTDOWN", "REPLBATT", "NOCOMM", "NOPARENT"]

  /** The template map's keys are the nine listed types. */
  lemma TemplateTypesAreKeys()
    ensures Keys(TEMPLATE_MAP) == TEMPLATE_TYPES
  {
    forall i | 0 <= i < |TEMPLATE_MAP| ensures TEMPLATE_TYPES[i] == TEMPLATE_MAP[i].0 {
    }
    KeysAre(TEMPLATE_MAP, TEMPLATE_TYPES);
  }

  /** A forced shutdown has no email template, so it is never emailed. */
  lemma ForcedShutdownHasNoTemplate()
    ensures TemplateFor("FSD").None?
  {
    forall i | 0 <= i < |TEMPLATE_TYPES| ensures TEMPLATE_TYPES[i] != "FSD" {
      assert TEMPLATE_TYPES[i][0] != 'F';
    }
  }

  /** The template for an event type, looked up in `TEMPLATE_MAP`. */
  function TemplateFor(eventType: string): (r: Option<string>)
    ensures r.Some? <==> eventType in TEMPLATE_TYPES
  {
    TemplateTypesAreKeys();
    Get(TEMPLATE_MAP, eventType)
  }

  /** The event data passed in; `None` is an absent key. */
  datatype EventData = EventData(
    isTest: bool,
    idEmail: Option<int>,
    toEmail: Option<string>,
    smtpServer: Option<string>,
    smtpPort: Option<string>,
    fromEmail: Option<string>,
    username: Option<string>,
    tls: Option<bool>,
    tlsStarttls: Option<bool>)

  /** `filter_by(event_type=...).first()` on the notification settings. */
  function SettingFor(settings: seq<NotificationSetting>, eventType: string): (r: Option<NotificationSetting>)
    ensures r.None? <==> forall i :: 0 <= i < |settings| ==> settings[i].eventType != eventType
    ensures r.Some? ==> r.value in settings && r.value.eventType == eventType
  {
    if |settings| == 0 then None
    else if settings[0].eventType == eventType then Some(settings[0])
    else SettingFor(settings[1..], eventType)
  }

  /** `query.get(id)` on the mail configurations. */
  function ById(configs: seq<MailView>, id: int): (r: Option<MailView>)
    ensures r.None? <==> forall i :: 0 <= i < |configs| ==> configs[i].id != id
    ensures r.Some? ==> r.value in configs && r.value.id == id
  {
    match IndexOfId(configs, id)
    case None => None
    case Some(i) => Some(configs[i])
  }

  /** A test names an existing configuration by `id_email`. */
  predicate TestIdFound(configs: seq<MailView>, data: EventData)
  {
    data.isTest && HasId(data.idEmail) && ById(configs, data.idEmail.value).Some?
  }

  /** The settings row names an existing configuration by `id_email`. */
  predicate SettingIdFound(configs: seq<MailView>, settingIdEmail: Option<int>)
  {
    HasId(settingIdEmail) && ById(configs, settingIdEmail.value).Some?
  }

  /** The mail configuration an event uses: the test's `id_email` (only in
    * a test), then the settings row's `id_email`, then the default row,
    * then the first row; an id that is not found falls through. */
  function ResolveMailConfig(configs: seq<MailView>, settingIdEmail: Option<int>, data: EventData): (r: Option<MailView>)
    ensures r.None? <==> configs == []
    ensures r.Some? ==> r.value in configs
    ensures TestIdFound(configs, data) ==> r == ById(configs, data.idEmail.value)
    ensures !TestIdFound(configs, data) && SettingIdFound(configs, settingIdEmail) ==>
      r == ById(configs, settingIdEmail.value)
    ensures !TestIdFound(configs, data) && !SettingIdFound(configs, settingIdEmail) ==> r == GetDefault(configs)
  {
    var fromTest := if HasId(data.idEmail) && data.isTest then ById(configs, data.idEmail.value) else None;
    var chosen := if fromTest.None? && HasId(settingIdEmail) then ById(configs, settingIdEmail.value) else fromTest;
    if chosen.Some? then chosen else GetDefault(configs)
  }

  /** Python's `not s or s.strip() == ''`. */
  predicate Blank(s: Option<string>)
  {
    s.None? || Strip(s.value) == ""
  }

  /** The recipient: the event's `to_email`, else the configuration's
    * `to_email`, else its username; blank values are skipped. */
  function Recipient(eventTo: Option<string>, c: MailView): (r: Option<string>)
    ensures !Blank(eventTo) ==> r == eventTo
    ensures Blank(eventTo) && !Blank(c.toEmail) ==> r == c.toEmail
    ensures Blank(eventTo) && Blank(c.toEmail) ==> r == c.username
  {
    if !Blank(eventTo) then eventTo
    else if !Blank(c.toEmail) then c.toEmail
    else c.username
  }

  /** Python's `f"{x}"` for an optional value. */
  function Shown(s: Option<string>): string
  {
    if s.Some? then s.value else "None"
  }

  /** Tests that carry their own server, port and sender use them; every
    * other send uses the stored configuration. The password always comes
    * from the stored configuration. */
  predicate UsesEventSettings(data: EventData)
  {
    data.isTest && data.smtpServer.Some? && data.smtpPort.Some? && data.fromEmail.Some?
  }

  function SmtpFor(data: EventData, c: MailView, password: Option<string>): (r: SmtpSettings)
    ensures r.password == password
    ensures !UsesEventSettings(data) ==> r.fromAddr == Shown(c.username) && r.useTls == c.tls
  {
    if UsesEventSettings(data) then
      SmtpSettings(data.smtpServer.value, data.smtpPort.value, data.username.GetOr(data.fromEmail.value), password,
                   data.tls.GetOr(true), data.fromEmail.value, data.tlsStarttls.GetOr(true))
    else
      SmtpSettings(Shown(c.smtpServer), if c.smtpPort.Some? then IntToString(c.smtpPort.value) else "None",
                   Shown(c.username), password, c.tls, Shown(c.username), c.tlsStarttls)
  }

  /** The email `send_notification` hands to `send_email`. */
  datatype Delivery = Delivery(to: ToAddr, subject: string, smtp: SmtpSettings)

  datatype Notified = Notified(outcome: Outcome, delivery: Option<Delivery>)

  const NO_SETTINGS: string := "No notification settings found"
  const NOTIFICATIONS_DISABLED: string := "Notifications are disabled"
  const CONFIG_UNAVAILABLE: string := "Email configuration not found or disabled"

  function Fail(message: string): Notified
  {
    Notified(Outcome(false, message), None)
  }

  /** The configuration `send_notification` settles on: none without a
    * settings row for the type, otherwise the resolved one. */
  function ChosenConfig(eventType: string, data: EventData, settings: seq<NotificationSetting>,
                        configs: seq<MailView>): (r: Option<MailView>)
    ensures r.Some? ==> SettingFor(settings, eventType).Some? && r.value in configs
    ensures SettingFor(settings, eventType).Some? && configs != [] ==> r.Some?
  {
    match SettingFor(settings, eventType)
    case None => None
    case Some(setting) => ResolveMailConfig(configs, setting.idEmail, data)
  }

  /** The stored password can be used: none is stored, or it decrypts. */
  predicate PasswordUsable(c: MailView, k: Key)
  {
    c.Password(k).None? || c.Password(k).value.Ok?
  }

  function PasswordText(c: MailView, k: Key): Option<string>
    requires PasswordUsable(c, k)
  {
    if c.Password(k).None? then None else Some(c.Password(k).value.value)
  }

  /** `EmailNotifier.send_notification`; `rendered` says whether the template
    * renders and `run` is what msmtp does. */
  function SendNotification(eventType: string, data: EventData, settings: seq<NotificationSetting>,
                            configs: seq<MailView>, k: Key, rendered: bool, certPath: string,
                            run: ProcessResult): (r: Notified)
    ensures r.delivery.None? ==> !r.outcome.success
    ensures r.delivery.Some? ==> ChosenConfig(eventType, data, settings, configs).Some?
    ensures r.delivery.Some? ==>
      r == NotifyWith(eventType, data, ChosenConfig(eventType, data, settings, configs).value, k, rendered, certPath, run)
  {
    match SettingFor(settings, eventType)
    case None => Fail(NO_SETTINGS)
    case Some(setting) =>
      if !setting.enabled && !data.isTest then Fail(NOTIFICATIONS_DISABLED)
      else match ResolveMailConfig(configs, setting.idEmail, data)
        case None => Fail(CONFIG_UNAVAILABLE)
        case Some(c) => NotifyWith(eventType, data, c, k, rendered, certPath, run)
  }

  /** `send_notification` once a configuration `c` is found: its `enabled`
    * flag (ignored by tests), the template, the rendering and the password
    * decide whether an email is handed to msmtp. */
  function NotifyWith(eventType: string, data: EventData, c: MailView, k: Key, rendered: bool, certPath: string,
                      run: ProcessResult): (r: Notified)
    ensures r.delivery.Some? <==>
      (c.enabled || data.isTest) && eventType in TEMPLATE_TYPES && rendered && PasswordUsable(c, k)
    ensures r.delivery.None? ==> !r.outcome.success
    ensures r.delivery.Some? ==> r == Deliver(eventType, data, c, PasswordText(c, k), certPath, run)
  {
    if !c.enabled && !data.isTest then Fail(CONFIG_UNAVAILABLE)
    else match TemplateFor(eventType)
      case None => Fail("No template found for event type: " + eventType)
      case Some(template) => RenderAndSend(eventType, template, data, c, k, rendered, certPath, run)
  }

  /** The rendering of `template` and the password decide the last steps. */
  function RenderAndSend(eventType: string, template: string, data: EventData, c: MailView, k: Key, rendered: bool,
                         certPath: string, run: ProcessResult): (r: Notified)
    ensures r.delivery.Some? <==> rendered && PasswordUsable(c, k)
    ensures r.delivery.None? ==> !r.outcome.success
    ensures r.delivery.Some? ==> r == Deliver(eventType, data, c, PasswordText(c, k), certPath, run)
    ensures !rendered ==> r.outcome.message == "Error rendering template: dashboard/" + template
    ensures rendered && !PasswordUsable(c, k) ==> r.outcome == Outcome(false, INVALID_TOKEN) && r.outcome.message == ""
  {
    if !rendered then Fail("Error rendering template: dashboard/" + template)
    else match c.Password(k)
      case Some(Err(e)) => Fail(e)
      case Some(Ok(password)) => Deliver(eventType, data, c, Some(password), certPath, run)
      case None => Deliver(eventType, data, c, None, certPath, run)
  }

  /** The last step of `send_notification`: one recipient, the event
    * subject, and the outcome of `send_email`. */
  function Deliver(eventType: string, data: EventData, c: MailView, password: Option<string>, certPath: string,
                   run: ProcessResult): (r: Notified)
    ensures r.delivery.Some? && r.delivery.value.to == Many([Recipient(data.toEmail, c)])
    ensures r.delivery.value.subject == "UPS Event: " + eventType
    ensures r.outcome == SendEmail(r.delivery.value.to, r.delivery.value.smtp, certPath, run)
    ensures r.outcome.message != NO_RECIPIENT
    ensures Recipient(data.toEmail, c).None? ==> r.outcome == Outcome(false, "Error sending email: " + JoinError(0))
  {
    var smtp := SmtpFor(data, c, password);
    var to := Many([Recipient(data.toEmail, c)]);
    NeverNoRecipient(to, smtp, certPath, run);
    Notified(SendEmail(to, smtp, certPath, run), Some(Delivery(to, "UPS Event: " + eventType, smtp)))
  }

  /** An email is handed to msmtp exactly when a settings row exists and is
    * enabled (or it is a test), a configuration is found and is enabled (or
    * it is a test), the type has a template, the template renders and the
    * stored password decrypts. */
  lemma DeliveryConditions(eventType: string, data: EventData, settings: seq<NotificationSetting>,
                           configs: seq<MailView>, k: Key, rendered: bool, certPath: string, run: ProcessResult)
    ensures var r := SendNotification(eventType, data, settings, configs, k, rendered, certPath, run);
      var st := SettingFor(settings, eventType);
      r.delivery.Some? <==>
        st.Some? && (st.value.enabled || data.isTest) && configs != []
        && var c := ResolveMailConfig(configs, st.value.idEmail, data).value;
        (c.enabled || data.isTest) && eventType in TEMPLATE_TYPES && rendered && PasswordUsable(c, k)
  {
  }

  /** Every email goes to one recipient chosen by `Recipient` with the
    * subject "UPS Event: <type>", and its outcome is that of `send_email`;
    * the recipient check of `send_email` therefore never fires from here,
    * even when no address is known. */
  lemma DeliveryShape(eventType: string, data: EventData, settings: seq<NotificationSetting>,
                      configs: seq<MailView>, k: Key, rendered: bool, certPath: string, run: ProcessResult)
    requires SendNotification(eventType, data, settings, configs, k, rendered, certPath, run).delivery.Some?
    ensures var r := SendNotification(eventType, data, settings, configs, k, rendered, certPath, run);
      var c := ChosenConfig(eventType, data, settings, configs).value;
      && r.delivery.value.subject == "UPS Event: " + eventType
      && r.delivery.value.to == Many([Recipient(data.toEmail, c)])
      && r.outcome == SendEmail(r.delivery.value.to, r.delivery.value.smtp, certPath, run)
      && r.outcome.message != NO_RECIPIENT
  {
  }

  /** With a recipient list present, `send_email` never answers with the
    * missing-recipient message. */
  lemma NeverNoRecipient(to: ToAddr, smtp: SmtpSettings, certPath: string, run: ProcessResult)
    requires !NoRecipient(to)
    ensures SendEmail(to, smtp, certPath, run).message != NO_RECIPIENT
  {
    var m := SendEmail(to, smtp, certPath, run).message;
    assert m[0] == 'E' || m[0] == 'F';
    assert NO_RECIPIENT[0] == 'N';
  }

  /* ---------------------------------------------------------------- */
  /* test_notification                                                 */
  /* ---------------------------------------------------------------- */

  /** The optional `test_data`; `None` is an absent key. */
  datatype TestData = TestData(idEmail: Option<int>, toEmail: Option<string>)

  /** The event data a test sends: always marked as a test, with no SMTP
    * overrides. */
  function TestEventData(t: TestData): (r: EventData)
    ensures r.isTest && !UsesEventSettings(r)
  {
    EventData(true, t.idEmail, t.toEmail, None, None, None, None, None, None)
  }

  /** What an admitted test request does: an `id_email` that names no
    * configuration stops it; otherwise it is an ordinary send marked as a test. */
  function TestSend(eventType: string, t: TestData, settings: seq<NotificationSetting>, configs: seq<MailView>,
                    k: Key, rendered: bool, certPath: string, run: ProcessResult): (r: Outcome)
    ensures t.idEmail.Some? && ById(configs, t.idEmail.value).None? ==>
      r == Outcome(false, "Email configuration with ID " + IntToString(t.idEmail.value) + " not found")
  {
    if t.idEmail.Some? && ById(configs, t.idEmail.value).None? then
      Outcome(false, "Email configuration with ID " + IntToString(t.idEmail.value) + " not found")
    else SendNotification(eventType, TestEventData(t), settings, configs, k, rendered, certPath, run).outcome
  }

  /** A test of a type without settings row is still sent when the
    * configuration exists: the test flag bypasses both `enabled` checks. */
  lemma TestIgnoresEnabledFlags(eventType: string, t: TestData, settings: seq<NotificationSetting>,
                                configs: seq<MailView>, k: Key, certPath: string, run: ProcessResult)
    requires SettingFor(settings, eventType).Some? && configs != [] && eventType in TEMPLATE_TYPES
    requires forall c :: c in configs ==> c.storedPassword.None?
    requires t.idEmail.None?
    ensures SendNotification(eventType, TestEventData(t), settings, configs, k, true, certPath, run).delivery.Some?
  {
    var data := TestEventData(t);
    var c := ChosenConfig(eventType, data, settings, configs).value;
    assert PasswordUsable(c, k);
    assert NotifyWith(eventType, data, c, k, true, certPath, run).delivery.Some?;
  }

  /** The module-level time of the last accepted test send. */
  class TestThrottle {
    var lastTestTime: real

    constructor ()
      ensures lastTestTime == 0.0
    {
      lastTestTime := 0.0;
    }

    /** `test_notification`: a request within the cooldown is refused
      * without touching the stored time; otherwise the time is recorded
      * before anything is sent. */
    method TestNotification(now: real, eventType: string, t: TestData, settings: seq<NotificationSetting>,
                            configs: seq<MailView>, k: Key, rendered: bool, certPath: string,
                            run: ProcessResult) returns (r: Outcome)
      modifies this
      ensures !Admits(old(lastTestTime), now) ==> r == Outcome(false, WAIT_MESSAGE) && lastTestTime == old(lastTestTime)
      ensures Admits(old(lastTestTime), now) ==>
        lastTestTime == now && r == TestSend(eventType, t, settings, configs, k, rendered, certPath, run)
    {
      if now - lastTestTime < TEST_COOLDOWN {
        return Outcome(false, WAIT_MESSAGE);
      }
      lastTestTime := now;
      r := TestSend(eventType, t, settings, configs, k, rendered, certPath, run);
    }
  }

  /* ---------------------------------------------------------------- */
  /* Runtime texts                                                     */
  /* ---------------------------------------------------------------- */

  /** A value as stored or reported: missing, a number or text. */
  datatype Scalar = SNone | SNum(x: real) | SStr(s: string)

  const NOT_AVAILABLE: string := "N/A"

  /** `float(v)`; `None` is the `ValueError`/`TypeError`. */
  function FloatOf(v: Scalar): Option<real>
  {
    match v
    case SNone => None
    case SNum(x) => Some(x)
    case SStr(s) => ParseDecimal(s)
  }

  /** A whole number of minutes as "<m> min", or "<h>h <m>m" from an hour on. */
  function FormatMinutes(m: nat): string
  {
    if m < 60 then NatToString(m) + " min"
    else NatToString(m / 60) + "h " + NatToString(m % 60) + "m"
  }

  /** Reads back a minute count from "<m> min" or "<h>h <m>m". */
  function MinutesOf(t: string): Option<nat>
  {
    match SplitFirst(t, 'h')
    case None =>
      if EndsWith(t, " min") && IsDigits(t[..|t| - 4]) then Some(DigitsValue(t[..|t| - 4])) else None
    case Some(p) =>
      var rest := p.1;
      if IsDigits(p.0) && |rest| >= 3 && rest[0] == ' ' && rest[|rest| - 1] == 'm' && IsDigits(rest[1..|rest| - 1])
      then Some(DigitsValue(p.0) * 60 + DigitsValue(rest[1..|rest| - 1]))
      else None
  }

  /** A string without `c` is the part before the first `c`. */
  lemma SplitFirstAt(a: string, c: char, b: string)
    requires c !in a
    ensures SplitFirst(a + [c] + b, c) == Some((a, b))
  {
    var s := a + [c] + b;
    assert s[|a|] == c;
    var p := SplitFirst(s, c).value;
    assert |p.0| == |a| by {
      assert forall i :: 0 <= i < |a| ==> s[i] == a[i];
      assert forall i :: 0 <= i < |p.0| ==> s[i] == p.0[i];
      assert s[|p.0|] == c;
    }
    assert p.0 == s[..|a|] == a;
    assert p.1 == s[|a| + 1..] == b;
  }

  lemma DigitsHaveNoH(s: string)
    requires AllDigits(s)
    ensures 'h' !in s
  {
    forall i | 0 <= i < |s| ensures s[i] != 'h' {
      assert IsDigit(s[i]);
    }
  }

  /** "<n> min" reads back as `n`. */
  lemma MinutesTextRoundTrip(n: nat)
    ensures MinutesOf(NatToString(n) + " min") == Some(n)
  {
    var d := NatToString(n);
    var t := d + " min";
    DigitsHaveNoH(d);
    assert 'h' !in " min";
    assert 'h' !in t by {
      forall i | 0 <= i < |t| ensures t[i] != 'h' {
        if i < |d| { assert t[i] == d[i]; } else { assert t[i] == " min"[i - |d|]; }
      }
    }
    assert t[..|t| - 4] == d;
    NatToStringRoundTrip(n);
  }

  /** Every minute text reads back as the minutes it was made from. */
  lemma FormatMinutesRoundTrip(m: nat)
    ensures MinutesOf(FormatMinutes(m)) == Some(m)
  {
    if m < 60 {
      MinutesTextRoundTrip(m);
    } else {
      var h := NatToString(m / 60);
      var mm := NatToString(m % 60);
      var rest := " " + mm + "m";
      DigitsHaveNoH(h);
      assert FormatMinutes(m) == h + ['h'] + rest;
      SplitFirstAt(h, 'h', rest);
      assert rest[1..|rest| - 1] == mm;
      NatToStringRoundTrip(m / 60);
      NatToStringRoundTrip(m % 60);
    }
  }

  /** The text `format_runtime` gives for a number of seconds. */
  function RuntimeText(x: real): string
  {
    if x <= 0.0 then NOT_AVAILABLE
    else if x < 60.0 then NatToString(x.Floor) + " sec"
    else FormatMinutes((x / 60.0).Floor)
  }

  /** `format_runtime`: seconds as "N/A", "<s> sec", "<m> min" or "<h>h <m>m". */
  function FormatRuntime(v: Scalar): (r: string)
    ensures v.SNone? || v == SStr("") ==> r == NOT_AVAILABLE
  {
    if v.SNone? || v == SStr("") then NOT_AVAILABLE
    else match FloatOf(v)
      case None => NOT_AVAILABLE
      case Some(x) => RuntimeText(x)
  }

  lemma EmptyTextIsNotANumber()
    ensures ParseDecimal("") == None
  {
    assert Strip("") == "";
  }

  /** Non-positive numbers give "N/A", under a minute the whole seconds are
    * shown, and from a minute on the text reads back as the whole minutes. */
  lemma RuntimeTextMeaning(x: real)
    ensures x <= 0.0 ==> RuntimeText(x) == NOT_AVAILABLE
    ensures 0.0 < x < 60.0 ==> RuntimeText(x) == NatToString(x.Floor) + " sec"
    ensures x >= 60.0 ==> MinutesOf(RuntimeText(x)) == Some((x / 60.0).Floor)
  {
    if x >= 60.0 {
      var m := (x / 60.0).Floor;
      assert RuntimeText(x) == FormatMinutes(m);
      FormatMinutesRoundTrip(m);
    }
  }

  /** A value that does not convert gives "N/A"; one that does is
    * formatted by its number alone. */
  lemma FormatRuntimeMeaning(v: Scalar)
    ensures FloatOf(v).None? ==> FormatRuntime(v) == NOT_AVAILABLE
    ensures FloatOf(v).Some? ==> FormatRuntime(v) == RuntimeText(FloatOf(v).value)
  {
    if FloatOf(v).Some? {
      assert !(v.SNone? || v == SStr("")) by {
        EmptyTextIsNotANumber();
      }
    }
  }

  /** The runtime estimate from a charge: one minute per percent, "N/A"
    * outside (0, 100]. */
  function ChargeRuntime(charge: real): string
  {
    if charge <= 0.0 || charge > 100.0 then NOT_AVAILABLE else FormatMinutes(charge.Floor)
  }

  /** `estimate_runtime_from_charge` as written: `float()` is applied to the
    * whole text first, so the branch that strips a trailing '%' is only
    * reached for text that does not end in '%'. */
  function EstimateRuntimeFromChargeAsWritten(v: Scalar): (r: string)
    ensures FloatOf(v).None? || v == SStr("") ==> r == NOT_AVAILABLE
    ensures !(v.SStr? && EndsWith(v.s, "%")) && FloatOf(v).Some? && v != SStr("") ==> r == ChargeRuntime(FloatOf(v).value)
  {
    if v.SNone? || v == SStr("") then NOT_AVAILABLE
    else match FloatOf(v)
      case None => NOT_AVAILABLE
      case Some(c0) =>
        var charge := if v.SStr? && EndsWith(v.s, "%") then ParseDecimal(v.s[..|v.s| - 1]) else Some(c0);
        if charge.None? then NOT_AVAILABLE else ChargeRuntime(charge.value)
  }

  /** Stripping keeps a last character that is not blank. */
  lemma StripKeepsLast(s: string)
    requires |s| > 0 && !IsSpace(s[|s| - 1])
    ensures |Strip(s)| > 0 && Strip(s)[|Strip(s)| - 1] == s[|s| - 1]
  {
    var l := LStrip(s);
    assert |l| > 0 && l[|l| - 1] == s[|s| - 1];
    assert RStrip(l) == l;
  }

  /** Unsigned decimal text must end in a digit or the point. */
  lemma UnsignedNeedsDigitEnd(u: string)
    requires |u| > 0 && !IsDigit(u[|u| - 1]) && u[|u| - 1] != '.'
    ensures ParseUnsignedDecimal(u) == None
  {
    match SplitFirst(u, '.')
    case None =>
    case Some(p) =>
      assert u == p.0 + "." + p.1;
      assert |p.1| > 0 && p.1[|p.1| - 1] == u[|u| - 1];
  }

  /** Text ending in '%' never parses as a number. */
  lemma PercentTextIsNotANumber(s: string)
    requires EndsWith(s, "%")
    ensures ParseDecimal(s) == None
  {
    assert s[|s| - 1] == '%';
    StripKeepsLast(s);
    var t := Strip(s);
    if t[0] == '-' || t[0] == '+' {
      assert |t| > 1;
      UnsignedNeedsDigitEnd(t[1..]);
    } else {
      UnsignedNeedsDigitEnd(t);
    }
  }

  /** As written, every charge given as "<n>%" is reported as "N/A". */
  lemma PercentChargeUnavailableAsWritten(s: string)
    requires EndsWith(s, "%")
    ensures EstimateRuntimeFromChargeAsWritten(SStr(s)) == NOT_AVAILABLE
  {
    PercentTextIsNotANumber(s);
  }

  /** `estimate_runtime_from_charge` with the trailing '%' removed before the
    * conversion, as its comment intends. */
  function EstimateRuntimeFromCharge(v: Scalar): (r: string)
    ensures v.SStr? && EndsWith(v.s, "%") && ParseDecimal(v.s[..|v.s| - 1]).Some? ==>
      r == ChargeRuntime(ParseDecimal(v.s[..|v.s| - 1]).value)
    ensures !(v.SStr? && EndsWith(v.s, "%")) && FloatOf(v).Some? && v != SStr("") ==> r == ChargeRuntime(FloatOf(v).value)
  {
    if v.SNone? || v == SStr("") then NOT_AVAILABLE
    else
      var charge := if v.SStr? && EndsWith(v.s, "%") then ParseDecimal(v.s[..|v.s| - 1]) else FloatOf(v);
      if charge.None? then NOT_AVAILABLE else ChargeRuntime(charge.value)
  }

  /** "50%" gives "N/A" as written and "50 min" once the '%' is removed. */
  lemma HalfChargeEstimate()
    ensures EstimateRuntimeFromChargeAsWritten(SStr("50%")) == NOT_AVAILABLE
    ensures EstimateRuntimeFromCharge(SStr("50%")) == "50 min"
  {
    PercentChargeUnavailableAsWritten("50%");
    HalfChargeParses();
    HalfChargeText();
  }

  lemma HalfChargeParses()
    ensures EndsWith("50%", "%") && "50%"[..2] == "50"
    ensures ParseDecimal("50") == Some(50.0)
  {
    assert NatToString(50) == "50" by {
      assert NatToString(5) == "5";
    }
    NatToStringRoundTrip(50);
    ParseDigits("50");
  }

  lemma HalfChargeText()
    ensures ChargeRuntime(50.0) == "50 min"
  {
    assert (50.0).Floor == 50;
    assert NatToString(50) == "50" by {
      assert NatToString(5) == "5";
    }
  }

  /** The two agree on every value that is not text ending in '%'. */
  lemma EstimateAgreesWithoutPercent(v: Scalar)
    requires !(v.SStr? && EndsWith(v.s, "%"))
    ensures EstimateRuntimeFromCharge(v) == EstimateRuntimeFromChargeAsWritten(v)
  {
  }

  /* ---------------------------------------------------------------- */
  /* get_battery_duration                                              */
  /* ---------------------------------------------------------------- */

  /** The latest ONLINE event and the latest ONBATT event strictly before it. */
  function BatteryCycle(vs: seq<EventView>): (r: Option<(EventView, EventView)>)
    ensures (forall v :: v in vs ==> v.kind != "ONLINE") ==> r.None?
    ensures r.Some? ==> r.value.0 in vs && r.value.0.kind == "ONLINE" && r.value.0.ts.Some?
    ensures r.Some? ==> forall v :: v in vs && v.kind == "ONLINE" ==> AtLeast(r.value.0, v)
    ensures r.Some? ==> r.value.1 in vs && r.value.1.kind == "ONBATT" && r.value.1.ts.Some?
    ensures r.Some? ==> r.value.1.ts.value < r.value.0.ts.value
    ensures r.Some? ==> forall v :: v in vs && v.kind == "ONBATT" && v.ts.Some? && v.ts.value < r.value.0.ts.value ==>
      v.ts.value <= r.value.1.ts.value
  {
    match Latest(vs, (v: EventView) => v.kind == "ONLINE")
    case None => None
    case Some(online) =>
      if online.ts.None? then None
      else
        var before := (v: EventView) => v.kind == "ONBATT" && v.ts.Some? && v.ts.value < online.ts.value;
        match Latest(vs, before)
        case None => None
        case Some(onbatt) =>
          assert forall v :: v in vs && before(v) ==> AtLeast(onbatt, v);
          Some((online, onbatt))
  }

  /** `get_battery_duration`: the length of the last ONBATT-to-ONLINE cycle. */
  function GetBatteryDuration(vs: seq<EventView>): (r: string)
    ensures BatteryCycle(vs).None? ==> r == NOT_AVAILABLE
    ensures BatteryCycle(vs).Some? ==>
      var d := BatteryCycle(vs).value.0.ts.value - BatteryCycle(vs).value.1.ts.value;
      d > 0 && (d < 60 ==> EndsWith(r, " sec") && r == NatToString(d) + " sec") && (d >= 60 ==> MinutesOf(r) == Some(d / 60))
  {
    match BatteryCycle(vs)
    case None => NOT_AVAILABLE
    case Some(cycle) =>
      var d := cycle.0.ts.value - cycle.1.ts.value;
      if d < 60 then NatToString(d) + " sec"
      else
        MinutesTextRoundTrip(d / 60);
        NatToString(d / 60) + " min"
  }

  /* ---------------------------------------------------------------- */
  /* init_notification_settings                                        */
  /* ---------------------------------------------------------------- */

  /** `init_notification_settings` of the mail module: one disabled row per
    * template type, only into an empty table; a failed commit rolls back. */
  method InitNotificationSettings(table: NotificationTable, now: int, commit: CommitResult)
    modifies table
    ensures table.rows ==
      if old(table.rows) == [] && commit.None? then Seeded(Keys(TEMPLATE_MAP), now) else old(table.rows)
  {
    if table.rows != [] {
      return;
    }
    var pending := DefaultRows(Keys(TEMPLATE_MAP), now);
    if commit.None? {
      table.rows := pending;
    }
  }
}
