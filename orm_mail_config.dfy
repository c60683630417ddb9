/** The `ups_opt_mail_config` table: SMTP settings with a password that is
  * stored only in encrypted form. */
module OrmMailConfig {
  import opened Wrappers
  import opened Text
  import opened Cipher

  /** The columns of one row; `storedPassword` is the `_password` column,
    * holding the sealed token. */
  datatype MailView = MailView(
    id: int,
    smtpServer: Option<string>,
    smtpPort: Option<int>,
    username: Option<string>,
    storedPassword: Option<Token>,
    enabled: bool,
    provider: Option<string>,
    tls: bool,
    tlsStarttls: bool,
    isDefault: bool,
    toEmail: Option<string>)
  {
    /** The `password` getter: `None` when nothing is stored, otherwise the
      * decrypted text, or the decryption error. */
    function Password(k: Key): (r: Option<Result<string>>)
      ensures r.None? <==> storedPassword.None?
      ensures r.Some? && r.value.Err? ==> storedPassword.value.sealedWith != k.material
    {
      match storedPassword
      case None => None
      case Some(t) => Some(Decrypt(k, t))
    }

    /** The row after the `password` setter: `None` clears the column,
      * anything else stores its encryption. */
    function WithPassword(k: Key, value: Option<string>): (r: MailView)
      ensures r.Password(k) == (if value.None? then None else Some(Ok(value.value)))
      ensures r.(storedPassword := storedPassword) == this
    {
      match value
      case None => this.(storedPassword := None)
      case Some(v) =>
        DecryptEncrypt(k, v);
        this.(storedPassword := Some(Encrypt(k, v)))
    }

    /** `from_email`: always the username. */
    function FromEmail(): (r: Option<string>)
      ensures r == username
    {
      username
    }

    /** `from_name`: the part of the username before its first '@', or the
      * whole username when it has none. */
    function FromName(): (r: Option<string>)
      ensures r.None? <==> username.None?
      ensures username.Some? && '@' in username.value ==>
        '@' !in r.value && StartsWith(username.value, r.value + "@")
      ensures username.Some? && '@' !in username.value ==> r == username
    {
      if username.Some? && |username.value| > 0 && '@' in username.value then
        match SplitFirst(username.value, '@')
        case Some(p) =>
          assert username.value == (p.0 + "@") + p.1;
          Some(p.0)
      else username
    }
  }

  /** A row carrying only its id and the column defaults. */
  function NewRow(id: int): (r: MailView)
    ensures r.id == id && !r.enabled && !r.isDefault && r.tls && r.tlsStarttls
    ensures r.smtpServer.None? && r.smtpPort.None? && r.storedPassword.None?
  {
    MailView(id, None, None, None, None, false, None, true, true, false, None)
  }

  /** The position of the first row flagged `is_default`. */
  function FirstDefaultIndex(rows: seq<MailView>): (r: Option<nat>)
    ensures r.None? <==> forall i :: 0 <= i < |rows| ==> !rows[i].isDefault
    ensures r.Some? ==> r.value < |rows| && rows[r.value].isDefault
    ensures r.Some? ==> forall i :: 0 <= i < r.value ==> !rows[i].isDefault
  {
    if |rows| == 0 then None
    else if rows[0].isDefault then Some(0)
    else match FirstDefaultIndex(rows[1..])
      case None => None
      case Some(i) => Some(i + 1)
  }

  /** `get_default`: the first row flagged as default, else the first row,
    * else nothing. */
  function GetDefault(rows: seq<MailView>): (r: Option<MailView>)
    ensures r.None? <==> rows == []
    ensures (exists i :: 0 <= i < |rows| && rows[i].isDefault) ==>
      exists i :: 0 <= i < |rows| && rows[i].isDefault && r == Some(rows[i]) &&
        forall j :: 0 <= j < i ==> !rows[j].isDefault
    ensures (forall i :: 0 <= i < |rows| ==> !rows[i].isDefault) && rows != [] ==> r == Some(rows[0])
  {
    match FirstDefaultIndex(rows)
    case Some(i) => Some(rows[i])
    case None => if rows == [] then None else Some(rows[0])
  }

  /** One ORM row object; the password setter updates it in place. */
  class MailConfig {
    var id: int
    var smtpServer: Option<string>
    var smtpPort: Option<int>
    var username: Option<string>
    var storedPassword: Option<Token>
    var enabled: bool
    var provider: Option<string>
    var tls: bool
    var tlsStarttls: bool
    var isDefault: bool
    var toEmail: Option<string>

    /** `MailConfig(id=...)`: every other column takes its default. */
    constructor (id: int)
      ensures View() == NewRow(id)
    {
      this.id := id;
      smtpServer := None;
      smtpPort := None;
      username := None;
      storedPassword := None;
      enabled := false;
      provider := None;
      tls := true;
      tlsStarttls := true;
      isDefault := false;
      toEmail := None;
    }

    function View(): MailView
      reads this
    {
      MailView(id, smtpServer, smtpPort, username, storedPassword, enabled, provider, tls, tlsStarttls, isDefault, toEmail)
    }

    /** The `password` setter; reading the password back gives the value set. */
    method SetPassword(k: Key, value: Option<string>)
      modifies this
      ensures View() == old(View()).WithPassword(k, value)
      ensures View().Password(k) == (if value.None? then None else Some(Ok(value.value)))
    {
      if value.None? {
        storedPassword := None;
      } else {
        storedPassword := Some(Encrypt(k, value.value));
      }
    }
  }
}
