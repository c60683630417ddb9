/** Webhook delivery of UPS events: URL checks, request headers and body,
  * classification of the answer, and the fan-out over every webhook enabled
  * for an event. DNS answers, HTTP answers, JSON encoding and HMAC digests
  * are parameters. */
module Webhook {
  import opened Wrappers
  import opened Text
  import opened Dicts
  import opened Json
  import OrmWebhook

  /* ---------------------------------------------------------------- */
  /* WebhookNotifier.__init__                                          */
  /* ---------------------------------------------------------------- */

  /** The configuration dictionary a notifier reads; `None` is a missing key. */
  datatype WebhookSettings = WebhookSettings(
    id: Option<int>,
    name: Option<string>,
    url: Option<string>,
    authType: Option<string>,
    authUsername: Option<string>,
    authPassword: Option<string>,
    authToken: Option<string>,
    contentType: Option<string>,
    customHeaders: Option<string>,
    includeUpsData: Option<bool>,
    verifySsl: Option<bool>,
    signingEnabled: Option<bool>,
    signingSecret: Option<string>,
    signingHeader: Option<string>,
    signingAlgorithm: Option<string>,
    enforceHttps: Option<bool>,
    skipHostnameValidation: Option<bool>,
    directIpConnection: Option<bool>,
    ignoreResponseErrors: Option<bool>,
    retryTimeout: Option<int>)

  /** A notifier after `__init__`; its fields are not reassigned afterwards. */
  datatype Notifier = Notifier(
    name: string,
    url: string,
    authType: string,
    authUsername: string,
    authPassword: string,
    authToken: string,
    contentType: string,
    customHeaders: Dict<string>,
    includeUpsData: bool,
    verifySsl: bool,
    signingEnabled: bool,
    signingSecret: string,
    signingHeader: string,
    signingAlgorithm: string,
    enforceHttps: bool,
    skipHostnameValidation: bool,
    directIpConnection: bool,
    ignoreResponseErrors: bool,
    retryTimeout: int)

  const JSON_CONTENT: string := "application/json"
  const USER_AGENT: string := "Nutify-UPS-Monitor/1.0"

  /** `_parse_custom_headers`: missing or empty text gives no headers, and so
    * does text `json.loads` rejects (`parsed` is its outcome). */
  function ParseCustomHeaders(text: Option<string>, parsed: Option<Dict<string>>): (r: Dict<string>)
    ensures r != [] ==> text.Some? && text.value != "" && parsed == Some(r)
  {
    if text.None? || text.value == "" then []
    else if parsed.None? then []
    else parsed.value
  }

  /** `WebhookNotifier(config)`: every key that is missing takes its default. */
  function NewNotifier(c: WebhookSettings, parsed: Option<Dict<string>>): (r: Notifier)
  {
    Notifier(
      c.name.GetOr("Webhook"), c.url.GetOr(""), c.authType.GetOr("none"), c.authUsername.GetOr(""),
      c.authPassword.GetOr(""), c.authToken.GetOr(""), c.contentType.GetOr(JSON_CONTENT),
      ParseCustomHeaders(c.customHeaders, parsed), c.includeUpsData.GetOr(true), c.verifySsl.GetOr(true),
      c.signingEnabled.GetOr(false), c.signingSecret.GetOr(""), c.signingHeader.GetOr("X-Nutify-Signature"),
      c.signingAlgorithm.GetOr("sha256"), c.enforceHttps.GetOr(false), c.skipHostnameValidation.GetOr(false),
      c.directIpConnection.GetOr(false), c.ignoreResponseErrors.GetOr(false), c.retryTimeout.GetOr(30))
  }

  const NO_KEYS: WebhookSettings :=
    WebhookSettings(None, None, None, None, None, None, None, None, None, None, None, None, None, None, None, None,
                    None, None, None, None)

  /** An empty configuration: no authentication, JSON bodies with the UPS
    * data, certificate checks on, no signing (SHA-256 into
    * `X-Nutify-Signature` once enabled), plain HTTP allowed and every check
    * on the host enforced. */
  lemma EmptySettingsDefaults(parsed: Option<Dict<string>>)
    ensures NewNotifier(NO_KEYS, parsed) ==
      Notifier("Webhook", "", "none", "", "", "", JSON_CONTENT, [], true, true, false, "", "X-Nutify-Signature",
               "sha256", false, false, false, false, 30)
  {
  }

  /** `_get_auth`: user name and password for basic authentication only. */
  function Auth(n: Notifier): (r: Option<(string, string)>)
    ensures r.Some? <==> n.authType == "basic"
    ensures r.Some? ==> r.value == (n.authUsername, n.authPassword)
  {
    if n.authType == "basic" then Some((n.authUsername, n.authPassword)) else None
  }

  /* ---------------------------------------------------------------- */
  /* _validate_webhook_url                                             */
  /* ---------------------------------------------------------------- */

  /** The lowercase scheme and what follows `://`. */
  function SplitScheme(url: string): (r: Option<(string, string)>)
    ensures r.Some? ==> (r.value.0 == "http" || r.value.0 == "https") && url == r.value.0 + "://" + r.value.1
  {
    if StartsWith(url, "https://") then
      assert url == url[..8] + url[8..];
      Some(("https", url[8..]))
    else if StartsWith(url, "http://") then
      assert url == url[..7] + url[7..];
      Some(("http", url[7..]))
    else None
  }

  /** The characters `[^:/]` admits. */
  predicate HostChar(c: char)
  {
    c != ':' && c != '/'
  }

  /** The length of the longest prefix of host characters. */
  function HostLength(s: string): (n: nat)
    ensures n <= |s|
    ensures forall i :: 0 <= i < n ==> HostChar(s[i])
    ensures n < |s| ==> !HostChar(s[n])
  {
    if |s| == 0 || !HostChar(s[0]) then 0 else 1 + HostLength(s[1..])
  }

  /** The length of the longest prefix of decimal digits. */
  function DigitRun(s: string): (n: nat)
    ensures n <= |s|
    ensures forall i :: 0 <= i < n ==> IsDigit(s[i])
    ensures n < |s| ==> !IsDigit(s[n])
  {
    if |s| == 0 || !IsDigit(s[0]) then 0 else 1 + DigitRun(s[1..])
  }

  /** What `(/.*)?$` accepts: nothing, a final newline, or a path whose only
    * newline, if any, is its last character. */
  predicate PathOk(u: string)
  {
    u == "" || u == "\n" || (u[0] == '/' && forall i :: 0 <= i < |u| - 1 ==> u[i] != '\n')
  }

  /** What follows the host: an optional `:<digits>` port, then a path. */
  predicate PortAndPathOk(t: string)
  {
    if |t| > 0 && t[0] == ':' then
      var d := DigitRun(t[1..]);
      d > 0 && PathOk(t[1 + d..])
    else PathOk(t)
  }

  /** The pattern `^(https?)://([^:/]+)(:[0-9]+)?(/.*)?$`: the scheme and the
    * host, or `None` when the URL does not match. The match is case
    * sensitive, so an upper-case scheme is rejected. */
  function UrlMatch(url: string): (r: Option<(string, string)>)
    ensures r.Some? ==> r.value.0 == "http" || r.value.0 == "https"
    ensures r.Some? ==> |r.value.1| > 0 && forall i :: 0 <= i < |r.value.1| ==> HostChar(r.value.1[i])
    ensures r.Some? ==> StartsWith(url, r.value.0 + "://" + r.value.1)
  {
    match SplitScheme(url)
    case None => None
    case Some(p) =>
      var n := HostLength(p.1);
      if n > 0 && PortAndPathOk(p.1[n..]) then
        assert url == (p.0 + "://" + p.1[..n]) + p.1[n..];
        Some((p.0, p.1[..n]))
      else None
  }

  lemma HostLengthOf(host: string, tail: string)
    requires forall i :: 0 <= i < |host| ==> HostChar(host[i])
    requires tail == [] || !HostChar(tail[0])
    ensures HostLength(host + tail) == |host|
  {
    var s := host + tail;
    assert forall i :: 0 <= i < |host| ==> s[i] == host[i];
    assert |tail| > 0 ==> s[|host|] == tail[0];
  }

  lemma DigitRunOf(digits: string, tail: string)
    requires AllDigits(digits)
    requires tail == [] || !IsDigit(tail[0])
    ensures DigitRun(digits + tail) == |digits|
  {
    var s := digits + tail;
    assert forall i :: 0 <= i < |digits| ==> s[i] == digits[i];
    assert |tail| > 0 ==> s[|digits|] == tail[0];
  }

  /** The scheme split is unambiguous: "http" is never read as the start
    * of "https://". */
  lemma SplitSchemeOf(scheme: string, rest: string)
    requires scheme == "http" || scheme == "https"
    ensures SplitScheme(scheme + "://" + rest) == Some((scheme, rest))
  {
    var url := scheme + "://" + rest;
    if scheme == "http" {
      assert url[4] == ':';
      assert !StartsWith(url, "https://") by { assert url[4] != "https://"[4]; }
      assert url[..7] == "http://";
      assert url[7..] == rest;
    } else {
      assert url[..8] == "https://";
      assert url[8..] == rest;
    }
  }

  /** An optional numeric port followed by a path without line breaks is
    * accepted after the host. */
  lemma PortAndPathOf(port: string, path: string)
    requires port == "" || (IsDigits(port[1..]) && port[0] == ':')
    requires path == "" || (path[0] == '/' && forall i :: 0 <= i < |path| ==> path[i] != '\n')
    ensures PortAndPathOk(port + path)
  {
    var tail := port + path;
    if port == "" {
      assert tail == path;
    } else {
      var digits := port[1..];
      assert tail[1..] == digits + path;
      DigitRunOf(digits, path);
      assert tail[1 + |digits|..] == path;
    }
  }

  /** Every URL built from a lowercase scheme, a host, an optional numeric
    * port and a path without line breaks matches, and yields that scheme
    * and host. */
  lemma UrlMatchOfParts(scheme: string, host: string, port: string, path: string)
    requires scheme == "http" || scheme == "https"
    requires |host| > 0 && forall i :: 0 <= i < |host| ==> HostChar(host[i])
    requires port == "" || (IsDigits(port[1..]) && port[0] == ':')
    requires path == "" || (path[0] == '/' && forall i :: 0 <= i < |path| ==> path[i] != '\n')
    ensures UrlMatch(scheme + "://" + host + port + path) == Some((scheme, host))
  {
    var tail := port + path;
    var rest := host + tail;
    assert scheme + "://" + host + port + path == scheme + "://" + rest;
    SplitSchemeOf(scheme, rest);
    assert tail == [] || !HostChar(tail[0]);
    HostLengthOf(host, tail);
    assert rest[|host|..] == tail;
    assert rest[..|host|] == host;
    PortAndPathOf(port, path);
  }

  /** The outcome of a check: passed, or failed with a message. */
  datatype Check = Passed | Failed(message: string)

  const NO_URL: string := "No URL configured"
  const BAD_URL_FORMAT: string := "Invalid URL format. Must start with http:// or https://"
  const HTTPS_REQUIRED: string := "HTTPS protocol is required for security. Use https:// instead of http://"

  /** The host less one final line break: `$` also matches just before a
    * final newline, and `int()` ignores it around the last octet. */
  function IpText(host: string): (r: string)
    ensures |host| > 0 && host[|host| - 1] == '\n' ==> r + "\n" == host
    ensures (|host| == 0 || host[|host| - 1] != '\n') ==> r == host
  {
    if |host| > 0 && host[|host| - 1] == '\n' then host[..|host| - 1] else host
  }

  /** The host matches `^(\d{1,3})\.(\d{1,3})\.(\d{1,3})\.(\d{1,3})$`. */
  predicate DottedQuad(host: string)
  {
    var parts := Split(IpText(host), '.');
    |parts| == 4 && forall i :: 0 <= i < 4 ==> 1 <= |parts[i]| <= 3 && AllDigits(parts[i])
  }

  /** A dotted quad with an octet above 255. */
  predicate OctetTooLarge(host: string)
    requires DottedQuad(host)
  {
    exists i :: 0 <= i < 4 && DigitsValue(Split(IpText(host), '.')[i]) > 255
  }

  /** A well-formed IPv4 literal: no name resolution is needed. */
  predicate IsIpv4(host: string)
  {
    DottedQuad(host) && !OctetTooLarge(host)
  }

  /** `_validate_webhook_url`; `resolution` is what resolving the host gives
    * (the address, or the error text). */
  function ValidateUrl(n: Notifier, resolution: Result<string>): (r: Check)
    ensures n.url == "" ==> r == Failed(NO_URL)
    ensures r.Passed? <==>
      && UrlMatch(n.url).Some?
      && (n.enforceHttps ==> UrlMatch(n.url).value.0 == "https")
      && !(DottedQuad(UrlMatch(n.url).value.1) && OctetTooLarge(UrlMatch(n.url).value.1))
      && (IsIpv4(UrlMatch(n.url).value.1) || n.skipHostnameValidation || resolution.Ok? || n.directIpConnection)
  {
    if n.url == "" then Failed(NO_URL)
    else match UrlMatch(n.url)
      case None => Failed(BAD_URL_FORMAT)
      case Some(m) =>
        var host := m.1;
        if n.enforceHttps && m.0 != "https" then Failed(HTTPS_REQUIRED)
        else if DottedQuad(host) && OctetTooLarge(host) then Failed("Invalid IP address format: " + host)
        else if !IsIpv4(host) && !n.skipHostnameValidation && resolution.Err? && !n.directIpConnection then
          Failed("Hostname resolution failed for " + host + ": " + resolution.error)
        else Passed
  }

  /** With host validation skipped, the answer of the name resolution is never
    * consulted. */
  lemma SkippedValidationIgnoresDns(n: Notifier, a: Result<string>, b: Result<string>)
    requires n.skipHostnameValidation
    ensures ValidateUrl(n, a) == ValidateUrl(n, b)
  {
  }

  /** Splitting at `c` after one character other than `c`. */
  lemma SplitAfter(x: char, c: char, y: string)
    requires x != c
    ensures Split([x, c] + y, c) == [[x]] + Split(y, c)
  {
    assert [x, c] + y == [x] + [c] + y;
    SplitFirstOf([x], c, y);
  }

  /** A single character other than `c` is one piece. */
  lemma SplitOne(d: char, c: char)
    requires d != c
    ensures Split([d], c) == [[d]]
  {
    assert SplitFirst([d], c) == None;
  }

  /** Two characters joined by a dot split back into those characters. */
  lemma SplitPair(c: char, d: char)
    requires c != '.' && d != '.'
    ensures Split([c, '.'] + [d], '.') == [[c], [d]]
  {
    SplitOne(d, '.');
    SplitAfter(c, '.', [d]);
  }

  /** Three characters joined by dots split back into those characters. */
  lemma SplitTriple(b: char, c: char, d: char)
    requires b != '.' && c != '.' && d != '.'
    ensures Split([b, '.'] + ([c, '.'] + [d]), '.') == [[b], [c], [d]]
  {
    SplitPair(c, d);
    SplitAfter(b, '.', [c, '.'] + [d]);
  }

  /** Four characters joined by dots split back into those characters. */
  lemma SplitQuad(a: char, b: char, c: char, d: char)
    requires a != '.' && b != '.' && c != '.' && d != '.'
    ensures Split(Quad(a, b, c, d), '.') == [[a], [b], [c], [d]]
  {
    SplitTriple(b, c, d);
    SplitAfter(a, '.', [b, '.'] + ([c, '.'] + [d]));
  }

  /** Four characters joined by dots. */
  function Quad(a: char, b: char, c: char, d: char): string
  {
    [a, '.'] + ([b, '.'] + ([c, '.'] + [d]))
  }

  /** A single digit is an octet in range. */
  lemma OneDigitOctet(s: string)
    requires |s| == 1 && IsDigit(s[0])
    ensures AllDigits(s) && DigitsValue(s) <= 9
  {
    assert s[..0] == [];
  }

  /** A host whose dotted pieces are four single digits is an IPv4 literal. */
  lemma SingleDigitsIpv4(host: string, a: char, b: char, c: char, d: char)
    requires IsDigit(a) && IsDigit(b) && IsDigit(c) && IsDigit(d)
    requires Split(IpText(host), '.') == [[a], [b], [c], [d]]
    ensures IsIpv4(host)
  {
    var parts := Split(IpText(host), '.');
    forall i | 0 <= i < 4
      ensures 1 <= |parts[i]| <= 3 && AllDigits(parts[i]) && DigitsValue(parts[i]) <= 255
    {
      OneDigitOctet(parts[i]);
    }
  }

  /** Four single digits joined by dots, with a final line break, form an
    * IPv4 literal: `$` matches before the line break and `int()` strips it. */
  lemma NewlineHostIsIpv4(a: char, b: char, c: char, d: char)
    requires IsDigit(a) && IsDigit(b) && IsDigit(c) && IsDigit(d)
    ensures IsIpv4(Quad(a, b, c, d) + ['\n'])
  {
    var host := Quad(a, b, c, d) + ['\n'];
    assert IpText(host) == Quad(a, b, c, d) by {
      assert host[..|host| - 1] == Quad(a, b, c, d);
    }
    SplitQuad(a, b, c, d);
    SingleDigitsIpv4(host, a, b, c, d);
  }

  /** The URL `http://1.2.3.4\n` matches, with the line break in its host. */
  lemma NewlineUrlMatch()
    ensures UrlMatch("http://1.2.3.4\n") == Some(("http", Quad('1', '2', '3', '4') + ['\n']))
  {
    var host := Quad('1', '2', '3', '4') + ['\n'];
    assert "http://1.2.3.4\n" == "http" + "://" + host + "" + "";
    UrlMatchOfParts("http", host, "", "");
  }

  /** So that URL passes without any name resolution. */
  lemma TrailingNewlineIp(n: Notifier, resolution: Result<string>)
    requires n.url == "http://1.2.3.4\n" && !n.enforceHttps
    ensures UrlMatch(n.url).Some? && IsIpv4(UrlMatch(n.url).value.1)
    ensures ValidateUrl(n, resolution) == Passed
  {
    NewlineUrlMatch();
    NewlineHostIsIpv4('1', '2', '3', '4');
  }

  /** The scheme is matched case-sensitively. */
  lemma UpperCaseSchemeRejected()
    ensures UrlMatch("HTTPS://hooks.example.com") == None
  {
    assert "HTTPS://hooks.example.com"[0] == 'H';
  }

  /* ---------------------------------------------------------------- */
  /* Request headers                                                   */
  /* ---------------------------------------------------------------- */

  /** The HMAC hash functions `_generate_signature` chooses from. */
  datatype HashAlg = Sha256 | Sha512

  /** The configured algorithm: SHA-512 only for "sha512", SHA-256 for
    * anything else. */
  function SigningHash(name: string): (r: HashAlg)
    ensures r == Sha512 <==> name == "sha512"
  {
    if name == "sha256" then Sha256 else if name == "sha512" then Sha512 else Sha256
  }

  /** The length of a hex digest: two characters per byte of the hash. */
  function DigestLength(alg: HashAlg): nat
  {
    match alg
    case Sha256 => 64
    case Sha512 => 128
  }

  /** What `hexdigest` can be: any function of algorithm, key and message
    * with the digest's length. */
  ghost predicate IsHexDigest(hexdigest: (HashAlg, string, string) -> string)
  {
    forall alg, key, message :: |hexdigest(alg, key, message)| == DigestLength(alg)
  }

  /** `_generate_signature`: nothing without a secret. */
  function Signature(n: Notifier, payloadText: string, hexdigest: (HashAlg, string, string) -> string): (r: Option<string>)
    ensures r.None? <==> n.signingSecret == ""
    ensures r.Some? ==> r.value == hexdigest(SigningHash(n.signingAlgorithm), n.signingSecret, payloadText)
  {
    if n.signingSecret == "" then None
    else Some(hexdigest(SigningHash(n.signingAlgorithm), n.signingSecret, payloadText))
  }

  /** A bearer token is sent. */
  predicate SendsBearer(n: Notifier)
  {
    n.authType == "bearer" && n.authToken != ""
  }

  /** The signature `_prepare_headers` adds, if any: signing is on, there is
    * a secret and a payload, and the digest is not empty. */
  function HeaderSignature(n: Notifier, payloadText: Option<string>, hexdigest: (HashAlg, string, string) -> string)
    : Option<string>
  {
    if n.signingEnabled && n.signingSecret != "" && payloadText.Some? && payloadText.value != "" then
      match Signature(n, payloadText.value, hexdigest)
      case Some(sig) => if sig != "" then Some(sig) else None
      case None => None
    else None
  }

  /** The value the notifier itself gives header `k`, the later assignment
    * winning: the signature, the bearer token, the content type, the user
    * agent. */
  function OwnHeader(n: Notifier, sig: Option<string>, k: string): Option<string>
  {
    if sig.Some? && k == n.signingHeader then sig
    else if k == "Authorization" && SendsBearer(n) then Some("Bearer " + n.authToken)
    else if k == "Content-Type" then Some(n.contentType)
    else if k == "User-Agent" then Some(USER_AGENT)
    else None
  }

  /** The headers before the custom ones: content type and user agent, the
    * bearer token, then the signature under its configured name. */
  function OwnHeaders(n: Notifier, payloadText: Option<string>, hexdigest: (HashAlg, string, string) -> string)
    : (r: Dict<string>)
    ensures forall k :: Get(r, k) == OwnHeader(n, HeaderSignature(n, payloadText, hexdigest), k)
  {
    var withAuth := AuthHeaders(n);
    var sig := HeaderSignature(n, payloadText, hexdigest);
    if sig.Some? then Put(withAuth, n.signingHeader, sig.value) else withAuth
  }

  /** The content type and user agent, then the bearer token. */
  function AuthHeaders(n: Notifier): (r: Dict<string>)
    ensures forall k :: Get(r, k) == OwnHeader(n, None, k)
  {
    var base: Dict<string> := [("Content-Type", n.contentType), ("User-Agent", USER_AGENT)];
    BaseHeaders(n.contentType);
    if SendsBearer(n) then Put(base, "Authorization", "Bearer " + n.authToken) else base
  }

  /** The two headers every request carries. */
  function BaseHeader(contentType: string, k: string): Option<string>
  {
    if k == "Content-Type" then Some(contentType) else if k == "User-Agent" then Some(USER_AGENT) else None
  }

  lemma BaseHeaders(contentType: string)
    ensures forall k :: Get([("Content-Type", contentType), ("User-Agent", USER_AGENT)], k) == BaseHeader(contentType, k)
  {
    var base: Dict<string> := [("Content-Type", contentType), ("User-Agent", USER_AGENT)];
    forall k
      ensures Get(base, k) == BaseHeader(contentType, k)
    {
      assert base[1..] == [("User-Agent", USER_AGENT)];
      assert base[1..][1..] == [];
    }
  }

  /** `_prepare_headers`: the custom headers are applied last. */
  function Headers(n: Notifier, payloadText: Option<string>, hexdigest: (HashAlg, string, string) -> string)
    : (r: Dict<string>)
    ensures forall k :: k !in Keys(n.customHeaders) ==> Get(r, k) == Get(OwnHeaders(n, payloadText, hexdigest), k)
  {
    Update(OwnHeaders(n, payloadText, hexdigest), n.customHeaders)
  }

  /** A custom header overrides whatever the notifier set under that name;
    * of repeated custom names the last one counts. */
  lemma CustomHeadersWin(n: Notifier, payloadText: Option<string>, hexdigest: (HashAlg, string, string) -> string,
                         i: nat)
    requires i < |n.customHeaders|
    requires forall j :: i < j < |n.customHeaders| ==> n.customHeaders[j].0 != n.customHeaders[i].0
    ensures Get(Headers(n, payloadText, hexdigest), n.customHeaders[i].0) == Some(n.customHeaders[i].1)
  {
    UpdateLastWins(OwnHeaders(n, payloadText, hexdigest), n.customHeaders, i);
  }

  /** With a genuine digest and a payload, the signature header is present
    * exactly when signing is enabled with a secret, and it holds the digest
    * of the payload under the chosen algorithm. */
  lemma SignatureHeaderRule(n: Notifier, payloadText: string, hexdigest: (HashAlg, string, string) -> string)
    requires IsHexDigest(hexdigest) && payloadText != ""
    ensures HeaderSignature(n, Some(payloadText), hexdigest).Some? <==> n.signingEnabled && n.signingSecret != ""
    ensures n.signingEnabled && n.signingSecret != "" ==>
      HeaderSignature(n, Some(payloadText), hexdigest) ==
      Some(hexdigest(SigningHash(n.signingAlgorithm), n.signingSecret, payloadText))
  {
    if n.signingEnabled && n.signingSecret != "" {
      var alg := SigningHash(n.signingAlgorithm);
      assert |hexdigest(alg, n.signingSecret, payloadText)| == DigestLength(alg);
    }
  }

  /* ---------------------------------------------------------------- */
  /* Payload                                                           */
  /* ---------------------------------------------------------------- */

  /** `_get_event_description`. */
  function Description(eventType: string): string
  {
    match eventType
    case "ONLINE" => "UPS is now running on line power"
    case "ONBATT" => "UPS has switched to battery power"
    case "LOWBATT" => "UPS battery is running low"
    case "COMMOK" => "Communication with UPS has been restored"
    case "COMMBAD" => "Communication with UPS has been lost"
    case "SHUTDOWN" => "System shutdown is imminent due to low battery"
    case "REPLBATT" => "UPS battery needs replacement"
    case "NOCOMM" => "Cannot communicate with the UPS"
    case "NOPARENT" => "Parent process has been lost"
    case "CAL" => "UPS is performing calibration"
    case "TRIM" => "UPS is trimming incoming voltage"
    case "BOOST" => "UPS is boosting incoming voltage"
    case "OFF" => "UPS is switched off"
    case "OVERLOAD" => "UPS is overloaded"
    case "BYPASS" => "UPS is in bypass mode"
    case "NOBATT" => "UPS has no battery"
    case "DATAOLD" => "UPS data is too old"
    case _ => "Unknown event: " + eventType
  }

  /** Every type a webhook cannot subscribe to, FSD and TEST included, is
    * described as an unknown event. */
  lemma UnsubscribableIsUnknown(eventType: string)
    requires eventType !in OrmWebhook.WEBHOOK_EVENTS
    ensures Description(eventType) == "Unknown event: " + eventType
  {
  }

  /** The three fields `_prepare_payload` always overwrites. */
  function EventFields(custom: Dict<Json>, eventType: string, timestamp: string): (r: Dict<Json>)
    ensures Get(r, "event_type") == Some(Str(eventType))
    ensures Get(r, "event_timestamp") == Some(Str(timestamp))
    ensures Get(r, "event_description") == Some(Str(Description(eventType)))
    ensures forall k :: k != "event_type" && k != "event_timestamp" && k != "event_description" ==>
      Get(r, k) == Get(custom, k)
  {
    var p1 := Put(custom, "event_type", Str(eventType));
    var p2 := Put(p1, "event_timestamp", Str(timestamp));
    Put(p2, "event_description", Str(Description(eventType)))
  }

  /** `_prepare_payload`: the custom payload (or an empty one) with the event
    * type, time and description set, and the UPS data added when it is
    * wanted and not empty. */
  function PreparePayload(n: Notifier, eventType: string, upsInfo: Json, custom: Dict<Json>, timestamp: string)
    : (r: Dict<Json>)
    ensures Get(r, "event_type") == Some(Str(eventType))
    ensures Get(r, "event_timestamp") == Some(Str(timestamp))
    ensures Get(r, "event_description") == Some(Str(Description(eventType)))
    ensures Get(r, "ups_data") == if n.includeUpsData && Truthy(upsInfo) then Some(upsInfo) else Get(custom, "ups_data")
    ensures forall k :: k != "event_type" && k != "event_timestamp" && k != "event_description" && k != "ups_data" ==>
      Get(r, k) == Get(custom, k)
  {
    AddUpsData(EventFields(custom, eventType, timestamp), n.includeUpsData && Truthy(upsInfo), upsInfo)
  }

  function AddUpsData(p: Dict<Json>, wanted: bool, upsInfo: Json): (r: Dict<Json>)
    ensures Get(r, "ups_data") == if wanted then Some(upsInfo) else Get(p, "ups_data")
    ensures forall k :: k != "ups_data" ==> Get(r, k) == Get(p, k)
  {
    if wanted then Put(p, "ups_data", upsInfo) else p
  }

  /* ---------------------------------------------------------------- */
  /* WebhookNotifier.send_notification                                 */
  /* ---------------------------------------------------------------- */

  /** What posting the request gave: an HTTP answer, or the exception raised. */
  datatype Response =
    | Answered(status: int, text: string)
    | SslFailure(message: string)
    | ConnectionFailure(message: string)
    | TimedOut(message: string)
    | RequestFailure(message: string)
    | Crashed(message: string)

  /** The result dictionary of `send_notification`; `None` is a key that is
    * not set. */
  datatype SendResult = SendResult(
    success: bool,
    message: string,
    errorType: Option<string>,
    statusCode: Option<int>,
    response: Option<string>,
    help: Option<Advice>,
    originalError: Option<string>)

  const REFUSED_BUT_SENT: string :=
    "Connection error: The request was likely sent but the server did not respond properly"

  /** A connection error whose text says the name did not resolve. */
  predicate DnsFailureText(m: string)
  {
    Contains(m, "NameResolutionError") || Contains(m, "Failed to resolve") || Contains(m, "Lookup timed out")
  }

  /** The advice a failed delivery carries under its 'help' key. */
  datatype Advice =
    | SslAdvice
    | RefusedAdvice
    | DnsAdvice
    | HttpsAdvice
    | HttpAdvice
    | TimeoutAdvice(seconds: int)

  /** The text of each advice under the 'help' key. */
  function HelpText(a: Advice): string
  {
    match a
    case SslAdvice =>
      "This usually indicates the server's SSL certificate is invalid, expired, " +
      "or not trusted by your system. You can disable SSL verification by setting " +
      "verify_ssl=False in the webhook configuration if you trust this server."
    case RefusedAdvice =>
      "This is normal when using simple test servers that don't send proper HTTP responses."
    case DnsAdvice =>
      "DNS resolution failed. Could not resolve the hostname in the webhook URL. " +
      "Try the following:\n" +
      "1. Check if the domain name is correct\n" +
      "2. Set 'skip_hostname_validation=True' in the webhook configuration\n" +
      "3. Set 'direct_ip_connection=True' to attempt connection despite DNS issues\n" +
      "4. Use an IP address directly in the URL instead of a hostname"
    case HttpsAdvice =>
      "Connection to HTTPS server failed. This could be due to:\n" +
      "1. SSL/TLS configuration issues on the server\n" +
      "2. Server is not reachable or not accepting connections\n" +
      "3. Network configuration issues\n\n" +
      "Try setting 'verify_ssl=False' or using HTTP if the server supports it."
    case HttpAdvice =>
      "Connection to HTTP server failed. This could be due to:\n" +
      "1. Server is not reachable or not accepting connections\n" +
      "2. Network configuration issues\n" +
      "3. The server might require HTTPS instead of HTTP"
    case TimeoutAdvice(seconds) => TimeoutHelp(seconds)
  }

  /** The timeout advice opens by naming the configured timeout. */
  function TimeoutHelp(seconds: int): (r: string)
    ensures StartsWith(r, "The request timed out after " + IntToString(seconds) + " seconds. ")
  {
    var head := "The request timed out after " + IntToString(seconds) + " seconds. ";
    var r := head +
      ("This could be due to:\n" +
       "1. Server is slow to respond or overloaded\n" +
       "2. Network latency or connectivity issues\n" +
       "3. Server is unreachable\n\n" +
       "Try increasing the 'retry_timeout' value in the webhook configuration.");
    assert r[..|head|] == head;
    r
  }

  /** The advice for a connection error that is neither ignored nor a name
    * resolution failure: `is_https` tests the lower-cased URL. */
  function ConnectionAdvice(url: string): (a: Advice)
    ensures a == HttpsAdvice <==> StartsWith(Lower(url), "https://")
    ensures a == HttpsAdvice || a == HttpAdvice
  {
    if StartsWith(Lower(url), "https://") then HttpsAdvice else HttpAdvice
  }

  function Failure(message: string, errorType: string): SendResult
  {
    SendResult(false, message, Some(errorType), None, None, None, None)
  }

  function Advised(message: string, errorType: string, help: Advice): SendResult
  {
    SendResult(false, message, Some(errorType), None, None, Some(help), None)
  }

  /** The answer classified: a status below 400 is a success, any other
    * status a failure carrying at most 200 characters of the body, and each
    * exception its own error type. */
  function Classify(n: Notifier, response: Response): (r: SendResult)
    ensures r.success <==> response.Answered? && response.status < 400
    ensures response.Answered? ==> r.statusCode == Some(response.status)
    ensures response.Answered? && response.status >= 400 ==>
      r.response.Some? && |r.response.value| <= 200 && StartsWith(response.text, r.response.value)
      && (|response.text| >= 200 ==> |r.response.value| == 200)
    ensures response.SslFailure? ==> r.errorType == Some("ssl_error")
    ensures response.ConnectionFailure? ==> r.errorType == Some("dns_error") || r.errorType == Some("connection_error")
    ensures response.ConnectionFailure? ==>
      (r.errorType == Some("dns_error") <==>
       !(n.ignoreResponseErrors && Contains(response.message, "ECONNREFUSED")) && DnsFailureText(response.message))
    ensures response.TimedOut? ==> r.errorType == Some("timeout_error")
    ensures response.RequestFailure? || response.Crashed? ==> r.errorType.None?
  {
    match response
    case Answered(status, text) =>
      if status < 400 then SendResult(true, "Webhook sent successfully: " + IntToString(status), None, Some(status), None, None, None)
      else
        var shown := if |text| <= 200 then text else text[..200];
        SendResult(false, "Webhook failed: " + IntToString(status), None, Some(status), Some(shown), None, None)
    case SslFailure(m) => Advised("SSL certificate verification failed: " + m, "ssl_error", SslAdvice)
    case ConnectionFailure(m) =>
      if n.ignoreResponseErrors && Contains(m, "ECONNREFUSED") then
        SendResult(false, REFUSED_BUT_SENT, Some("connection_error"), None, None, Some(RefusedAdvice), Some(m))
      else if DnsFailureText(m) then Advised("DNS resolution error: " + m, "dns_error", DnsAdvice)
      else Advised("Connection error: " + m, "connection_error", ConnectionAdvice(n.url))
    case TimedOut(m) => Advised("Request timed out: " + m, "timeout_error", TimeoutAdvice(n.retryTimeout))
    case RequestFailure(m) => SendResult(false, "Request error: " + m, None, None, None, None, None)
    case Crashed(m) => SendResult(false, m, None, None, None, None, None)
  }

  /** The advice keys of the classified answer: every typed error carries a
    * help text (the DNS one for a name resolution failure, the HTTPS or HTTP
    * one by the lower-cased scheme for another connection error, the
    * configured timeout for a timeout), and only an ignored refused
    * connection keeps the original error text. */
  lemma ClassifyAdvice(n: Notifier, response: Response)
    ensures var r := Classify(n, response);
      && (r.help.Some? <==> r.errorType.Some?)
      && (response.SslFailure? ==> r.help == Some(SslAdvice))
      && (response.TimedOut? ==> r.help == Some(TimeoutAdvice(n.retryTimeout)))
      && (r.errorType == Some("dns_error") ==> r.help == Some(DnsAdvice))
      && (r.originalError.Some? <==>
           response.ConnectionFailure? && n.ignoreResponseErrors && Contains(response.message, "ECONNREFUSED"))
      && (r.originalError.Some? ==>
           r.originalError.value == response.message && r.message == REFUSED_BUT_SENT && r.help == Some(RefusedAdvice))
      && (response.ConnectionFailure? && r.errorType == Some("connection_error") && r.originalError.None? ==>
           r.message == "Connection error: " + response.message &&
           (r.help == Some(HttpsAdvice) <==> StartsWith(Lower(n.url), "https://")) &&
           (r.help == Some(HttpsAdvice) || r.help == Some(HttpAdvice)))
  {
  }

  /** The body of the request: the payload itself for JSON, its text otherwise. */
  datatype Body = JsonBody(payload: Dict<Json>) | TextBody(text: string)

  /** What is posted to the webhook. */
  datatype Request = Request(url: string, headers: Dict<string>, auth: Option<(string, string)>, body: Body)

  /** The result, and the request when one is posted. */
  datatype Sent = Sent(result: SendResult, request: Option<Request>)

  /** A failed URL check still lets the request go out: with a direct IP
    * connection always, and with host validation skipped when the failure
    * is a name resolution. */
  predicate Proceeds(n: Notifier, check: Check)
  {
    check.Passed? ||
    (n.skipHostnameValidation && Contains(check.message, "Hostname resolution failed")) || n.directIpConnection
  }

  /** `send_notification`; `serialize(p, compact)` is `json.dumps` of `p`
    * (compact separators when `compact`), `hexdigest` the HMAC. */
  function SendNotification(n: Notifier, eventType: string, upsInfo: Json, custom: Dict<Json>, timestamp: string,
                            resolution: Result<string>, response: Response,
                            serialize: (Dict<Json>, bool) -> string,
                            hexdigest: (HashAlg, string, string) -> string): (r: Sent)
    ensures r.request.Some? <==> Proceeds(n, ValidateUrl(n, resolution))
    ensures r.request.None? ==>
      r.result == Failure(ValidateUrl(n, resolution).message, "url_validation_error")
    ensures r.request.Some? ==> r.result == Classify(n, response) && r.request.value.url == n.url
    ensures r.request.Some? ==> r.request.value.auth == Auth(n)
    ensures r.request.Some? ==>
      var payload := PreparePayload(n, eventType, upsInfo, custom, timestamp);
      var text := serialize(payload, n.contentType == JSON_CONTENT);
      && r.request.value.headers == Headers(n, Some(text), hexdigest)
      && r.request.value.body == if n.contentType == JSON_CONTENT then JsonBody(payload) else TextBody(text)
  {
    var check := ValidateUrl(n, resolution);
    if !Proceeds(n, check) then Sent(Failure(check.message, "url_validation_error"), None)
    else
      var payload := PreparePayload(n, eventType, upsInfo, custom, timestamp);
      var isJson := n.contentType == JSON_CONTENT;
      var text := serialize(payload, isJson);
      var body := if isJson then JsonBody(payload) else TextBody(text);
      Sent(Classify(n, response), Some(Request(n.url, Headers(n, Some(text), hexdigest), Auth(n), body)))
  }

  /** With a direct IP connection every URL problem is only logged: the
    * request is always posted. */
  lemma DirectConnectionAlwaysPosts(n: Notifier, eventType: string, upsInfo: Json, custom: Dict<Json>,
                                    timestamp: string, resolution: Result<string>, response: Response,
                                    serialize: (Dict<Json>, bool) -> string,
                                    hexdigest: (HashAlg, string, string) -> string)
    requires n.directIpConnection
    ensures SendNotification(n, eventType, upsInfo, custom, timestamp, resolution, response, serialize, hexdigest)
      .request.Some?
  {
  }

  /** Without a direct IP connection or skipped host validation, a request
    * is posted exactly when the URL check passes. */
  lemma StrictModePostsOnlyValidUrls(n: Notifier, eventType: string, upsInfo: Json, custom: Dict<Json>,
                                     timestamp: string, resolution: Result<string>, response: Response,
                                     serialize: (Dict<Json>, bool) -> string,
                                     hexdigest: (HashAlg, string, string) -> string)
    requires !n.directIpConnection && !n.skipHostnameValidation
    ensures var r := SendNotification(n, eventType, upsInfo, custom, timestamp, resolution, response, serialize, hexdigest);
      r.request.Some? <==> ValidateUrl(n, resolution).Passed?
  {
  }

  /* ---------------------------------------------------------------- */
  /* test_notification                                                 */
  /* ---------------------------------------------------------------- */

  /** The UPS data a test sends. */
  const TEST_UPS_INFO: Json := Obj([
    ("ups_model", Str("Test UPS")),
    ("device_serial", Str("TEST123456")),
    ("battery_charge", Str("100")),
    ("ups_status", Str("OL")),
    ("input_voltage", Str("230"))])

  /** The custom payload of a test. */
  function TestPayload(timestamp: string): Dict<Json>
  {
    [("test", Bool(true)),
     ("message", Str("This is a test notification from Nutify UPS Monitor")),
     ("timestamp", Str(timestamp))]
  }

  const NO_ANSWER_IS_FINE: string :=
    "Webhook was sent to the server, but no response was received. This is normal with simple test servers like netcat."

  /** The event type of a test: the one given, or TEST. */
  function TestEventType(eventType: Option<string>): (r: string)
    ensures eventType.Some? && eventType.value != "" ==> r == eventType.value
    ensures eventType.None? || eventType.value == "" ==> r == "TEST"
  {
    if eventType.Some? && eventType.value != "" then eventType.value else "TEST"
  }

  /** `test_notification`: response errors are ignored, and a connection error
    * counts as a success because the request has left. */
  function TestNotification(c: WebhookSettings, parsed: Option<Dict<string>>, eventType: Option<string>,
                            timestamp: string, resolution: Result<string>, response: Response,
                            serialize: (Dict<Json>, bool) -> string,
                            hexdigest: (HashAlg, string, string) -> string): (r: SendResult)
  {
    var n := NewNotifier(c.(ignoreResponseErrors := Some(true)), parsed);
    var sent := SendNotification(n, TestEventType(eventType), TEST_UPS_INFO, TestPayload(timestamp), timestamp,
                                 resolution, response, serialize, hexdigest);
    if !sent.result.success && sent.result.errorType == Some("connection_error") then
      SendResult(true, NO_ANSWER_IS_FINE, None, None, None, None, Some(sent.result.message))
    else sent.result
  }

  /** A test only changes `ignore_response_errors`, which the URL check
    * does not read. */
  lemma TestSkipsNoCheck(c: WebhookSettings, parsed: Option<Dict<string>>, resolution: Result<string>)
    ensures var n := NewNotifier(c.(ignoreResponseErrors := Some(true)), parsed);
      n == NewNotifier(c, parsed).(ignoreResponseErrors := true)
      && ValidateUrl(n, resolution) == ValidateUrl(NewNotifier(c, parsed), resolution)
  {
  }

  /** A test whose URL check lets it through and that gets an answer
    * succeeds exactly when the status is below 400. */
  lemma TestAnswered(c: WebhookSettings, parsed: Option<Dict<string>>, eventType: Option<string>,
                     timestamp: string, resolution: Result<string>, status: int, text: string,
                     serialize: (Dict<Json>, bool) -> string,
                     hexdigest: (HashAlg, string, string) -> string)
    requires Proceeds(NewNotifier(c, parsed), ValidateUrl(NewNotifier(c, parsed), resolution))
    ensures var r := TestNotification(c, parsed, eventType, timestamp, resolution, Answered(status, text), serialize,
                                      hexdigest);
      r.success <==> status < 400
  {
    TestSkipsNoCheck(c, parsed, resolution);
  }

  /** A test whose URL check lets it through reports success on a refused
    * connection, and on any connection error that is not a name
    * resolution failure; the error it would have reported is kept as the
    * original error. */
  lemma TestConnectionErrorIsSuccess(c: WebhookSettings, parsed: Option<Dict<string>>, eventType: Option<string>,
                                     timestamp: string, resolution: Result<string>, message: string,
                                     serialize: (Dict<Json>, bool) -> string,
                                     hexdigest: (HashAlg, string, string) -> string)
    requires Proceeds(NewNotifier(c, parsed), ValidateUrl(NewNotifier(c, parsed), resolution))
    requires Contains(message, "ECONNREFUSED") || !DnsFailureText(message)
    ensures TestNotification(c, parsed, eventType, timestamp, resolution, ConnectionFailure(message), serialize,
                             hexdigest) ==
      SendResult(true, NO_ANSWER_IS_FINE, None, None, None, None,
                 Some(if Contains(message, "ECONNREFUSED") then REFUSED_BUT_SENT else "Connection error: " + message))
  {
    TestSkipsNoCheck(c, parsed, resolution);
  }

  /** A name resolution failure stays a failure even in a test. */
  lemma TestDnsErrorIsFailure(c: WebhookSettings, parsed: Option<Dict<string>>, eventType: Option<string>,
                              timestamp: string, resolution: Result<string>, message: string,
                              serialize: (Dict<Json>, bool) -> string,
                              hexdigest: (HashAlg, string, string) -> string)
    requires Proceeds(NewNotifier(c, parsed), ValidateUrl(NewNotifier(c, parsed), resolution))
    requires !Contains(message, "ECONNREFUSED") && DnsFailureText(message)
    ensures var r := TestNotification(c, parsed, eventType, timestamp, resolution, ConnectionFailure(message),
                                      serialize, hexdigest);
      !r.success && r.errorType == Some("dns_error") && r.help == Some(DnsAdvice)
  {
    TestSkipsNoCheck(c, parsed, resolution);
    var n := NewNotifier(c.(ignoreResponseErrors := Some(true)), parsed);
    assert Classify(n, ConnectionFailure(message)) == Advised("DNS resolution error: " + message, "dns_error", DnsAdvice);
  }

  /* ---------------------------------------------------------------- */
  /* send_event_notification                                           */
  /* ---------------------------------------------------------------- */

  /** What the outside world does for one webhook: how its custom headers
    * parse, how its host resolves and what posting gives. */
  datatype Exchange = Exchange(parsedHeaders: Option<Dict<string>>, resolution: Result<string>, response: Response)

  /** One entry of `results`. */
  datatype Entry = Entry(webhookId: Option<int>, webhookName: Option<string>, success: bool, message: string)

  datatype EventResult = EventResult(success: bool, message: string, results: seq<Entry>)

  const NO_WEBHOOKS: string := "No webhooks enabled for this event"

  /** The entry for one webhook. */
  function EntryFor(c: WebhookSettings, x: Exchange, eventType: string, upsInfo: Json, timestamp: string,
                    serialize: (Dict<Json>, bool) -> string,
                    hexdigest: (HashAlg, string, string) -> string): (r: Entry)
    ensures r.webhookId == c.id && r.webhookName == c.name
  {
    var res := SendNotification(NewNotifier(c, x.parsedHeaders), eventType, upsInfo, [], timestamp, x.resolution,
                                x.response, serialize, hexdigest).result;
    Entry(c.id, c.name, res.success, res.message)
  }

  /** The number of successful entries. */
  function Succeeded(es: seq<Entry>): (r: nat)
    ensures r <= |es|
    ensures r > 0 <==> exists i :: 0 <= i < |es| && es[i].success
  {
    if |es| == 0 then 0
    else
      assert forall i :: 0 < i < |es| ==> es[i] == es[1..][i - 1];
      (if es[0].success then 1 else 0) + Succeeded(es[1..])
  }

  /** The loop of `send_event_notification`: each webhook in turn, with what
    * the outside world does for it, gives one entry. */
  method SendAll(configs: seq<WebhookSettings>, exchanges: seq<Exchange>,
                 attempt: (WebhookSettings, Exchange) -> Entry) returns (results: seq<Entry>)
    requires |exchanges| == |configs|
    ensures |results| == |configs|
    ensures forall i :: 0 <= i < |configs| ==> results[i] == attempt(configs[i], exchanges[i])
  {
    results := [];
    var i := 0;
    while i < |configs|
      invariant 0 <= i <= |configs|
      invariant |results| == i
      invariant forall j :: 0 <= j < i ==> results[j] == attempt(configs[j], exchanges[j])
    {
      results := results + [attempt(configs[i], exchanges[i])];
      i := i + 1;
    }
  }

  /** `send_event_notification`: every enabled webhook is tried in turn; the
    * event counts as delivered when any of them succeeded. */
  method SendEventNotification(eventType: string, upsInfo: Json, configs: seq<WebhookSettings>,
                               exchanges: seq<Exchange>, timestamp: string,
                               serialize: (Dict<Json>, bool) -> string,
                               hexdigest: (HashAlg, string, string) -> string) returns (r: EventResult)
    requires |exchanges| == |configs|
    ensures configs == [] ==> r == EventResult(false, NO_WEBHOOKS, [])
    ensures configs != [] ==> |r.results| == |configs|
    ensures configs != [] ==> forall i :: 0 <= i < |configs| ==>
      r.results[i] == EntryFor(configs[i], exchanges[i], eventType, upsInfo, timestamp, serialize, hexdigest)
    ensures configs != [] ==> (r.success <==> exists i :: 0 <= i < |r.results| && r.results[i].success)
    ensures configs != [] ==>
      r.message == "Sent to " + NatToString(|configs|) + " webhooks, " + NatToString(Succeeded(r.results)) + " succeeded"
  {
    if configs == [] {
      return EventResult(false, NO_WEBHOOKS, []);
    }
    var attempt := (c: WebhookSettings, x: Exchange) => EntryFor(c, x, eventType, upsInfo, timestamp, serialize, hexdigest);
    var results := SendAll(configs, exchanges, attempt);
    var succeeded := Succeeded(results);
    r := EventResult(succeeded > 0,
                     "Sent to " + NatToString(|results|) + " webhooks, " + NatToString(succeeded) + " succeeded",
                     results);
  }
}
