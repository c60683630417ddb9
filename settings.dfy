/** The `settings.txt` reader: the typing of one value and the loading of
  * the whole file over the built-in defaults. */
module Settings {
  import opened Wrappers
  import opened Text
  import opened Dicts

  /** What `parse_value` can return. */
  datatype Setting = SText(s: string) | SBool(b: bool) | SInt(i: int) | SFloat(x: real)

  const TRIPLE: string := "\"\"\""
  const DOUBLE_QUOTE: set<char> := {'"'}
  const QUOTES: set<char> := {'"', '\''}

  /** `s.lstrip(chars)` */
  function LStripChars(s: string, cs: set<char>): (r: string)
    ensures |r| <= |s| && r == s[|s| - |r|..]
    ensures r == [] || r[0] !in cs
    ensures |s| > 0 && s[0] !in cs ==> r == s
    decreases |s|
  {
    if |s| > 0 && s[0] in cs then LStripChars(s[1..], cs) else s
  }

  /** `s.rstrip(chars)` */
  function RStripChars(s: string, cs: set<char>): (r: string)
    ensures |r| <= |s| && r == s[..|r|]
    ensures r == [] || r[|r| - 1] !in cs
    ensures |s| > 0 && s[|s| - 1] !in cs ==> r == s
    decreases |s|
  {
    if |s| > 0 && s[|s| - 1] in cs then RStripChars(s[..|s| - 1], cs) else s
  }

  /** `s.strip(chars)`: no character of `chars` is left at either end. */
  function StripChars(s: string, cs: set<char>): (r: string)
    ensures r == [] || (r[0] !in cs && r[|r| - 1] !in cs)
    ensures |s| > 0 && s[0] !in cs && s[|s| - 1] !in cs ==> r == s
  {
    RStripChars(LStripChars(s, cs), cs)
  }

  /** Stripping removes exactly a leading run of characters from the set. */
  lemma {:induction false} LStripCharsPrefix(pre: string, x: string, cs: set<char>)
    requires forall i :: 0 <= i < |pre| ==> pre[i] in cs
    requires |x| > 0 && x[0] !in cs
    ensures LStripChars(pre + x, cs) == x
    decreases |pre|
  {
    if |pre| > 0 {
      assert (pre + x)[1..] == pre[1..] + x;
      LStripCharsPrefix(pre[1..], x, cs);
    } else {
      assert pre + x == x;
    }
  }

  /** Stripping removes exactly a trailing run of characters from the set. */
  lemma {:induction false} RStripCharsSuffix(x: string, post: string, cs: set<char>)
    requires forall i :: 0 <= i < |post| ==> post[i] in cs
    requires |x| > 0 && x[|x| - 1] !in cs
    ensures RStripChars(x + post, cs) == x
    decreases |post|
  {
    if |post| > 0 {
      assert (x + post)[..|x + post| - 1] == x + post[..|post| - 1];
      RStripCharsSuffix(x, post[..|post| - 1], cs);
    } else {
      assert x + post == x;
    }
  }

  /** `(pre + x + post).strip(cs) == x` when `pre` and `post` are made of
    * stripped characters and `x` starts and ends with kept ones. */
  lemma StripCharsAround(pre: string, x: string, post: string, cs: set<char>)
    requires forall i :: 0 <= i < |pre| ==> pre[i] in cs
    requires forall i :: 0 <= i < |post| ==> post[i] in cs
    requires |x| > 0 && x[0] !in cs && x[|x| - 1] !in cs
    ensures StripChars(pre + x + post, cs) == x
  {
    assert pre + x + post == pre + (x + post);
    LStripCharsPrefix(pre, x + post, cs);
    RStripCharsSuffix(x, post, cs);
  }

  /** The first step of `parse_value`: surrounding blanks go, and so does
    * everything from the first '#' on, quoted or not. */
  function Uncomment(value: string): (r: string)
    ensures '#' !in r
  {
    var v := Strip(value);
    match SplitFirst(v, '#')
    case None => v
    case Some(p) => StripKeepsOut(p.0, '#'); Strip(p.0)
  }

  /** The typing rules of `parse_value`, applied to uncommented text, in
    * their order: triple quotes, booleans, digit strings, decimals, and
    * otherwise the text without surrounding quotes. */
  function Typed(v: string): Setting
  {
    if StartsWith(v, TRIPLE) then
      match FindFrom(v, TRIPLE, 3)
      case Some(e) => SText(v[3..e])
      case None => SText(StripChars(v, DOUBLE_QUOTE))
    else if Lower(v) == "true" || Lower(v) == "false" then SBool(Lower(v) == "true")
    else if IsDigits(v) then SInt(DigitsValue(v))
    else if '.' in v && ParseDecimal(v).Some? then SFloat(ParseDecimal(v).value)
    else SText(StripChars(v, QUOTES))
  }

  /** `parse_value` */
  function ParseValue(value: string): Setting
  {
    Typed(Uncomment(value))
  }

  lemma {:induction false} LStripAround(a: string, c: char, b: string)
    requires !IsSpace(c)
    ensures LStrip(a + [c] + b) == LStrip(a) + [c] + b
    decreases |a|
  {
    if |a| == 0 {
      assert a + [c] + b == [c] + b;
    } else if IsSpace(a[0]) {
      assert (a + [c] + b)[1..] == a[1..] + [c] + b;
      LStripAround(a[1..], c, b);
    }
  }

  lemma {:induction false} RStripAround(a: string, c: char, b: string)
    requires !IsSpace(c)
    ensures RStrip(a + [c] + b) == a + [c] + RStrip(b)
    decreases |b|
  {
    if |b| == 0 {
      assert a + [c] + b == a + [c];
    } else if IsSpace(b[|b| - 1]) {
      assert (a + [c] + b)[..|a + [c] + b| - 1] == a + [c] + b[..|b| - 1];
      RStripAround(a, c, b[..|b| - 1]);
    }
  }

  /** A comment never changes the value: text with a '#' reads like the
    * text before it. */
  lemma CommentCut(a: string, b: string)
    requires '#' !in a
    ensures ParseValue(a + "#" + b) == ParseValue(a)
  {
    UncommentCut(a, b);
  }

  /** The comment step drops a '#' and what follows it. */
  lemma UncommentCut(a: string, b: string)
    requires '#' !in a
    ensures Uncomment(a + "#" + b) == Uncomment(a)
  {
    LStripAround(a, '#', b);
    var l := LStrip(a);
    SliceKeepsOut(a, |a| - |l|, |a|, '#');
    RStripAround(l, '#', b);
    assert Strip(a + "#" + b) == l + "#" + RStrip(b);
    SplitFirstOf(l, '#', RStrip(b));
    LStripFixed(l);
    UncommentNoHash(a);
  }

  /** Without a '#' the comment step only strips. */
  lemma UncommentNoHash(v: string)
    requires '#' !in v
    ensures Uncomment(v) == Strip(v)
  {
    StripKeepsOut(v, '#');
  }

  /** Text that starts with no blank is left alone by `lstrip`. */
  lemma LStripFixed(s: string)
    requires s == [] || !IsSpace(s[0])
    ensures LStrip(s) == s
  {
  }

  /** Text without '#' and without blanks at its ends is left as it is by
    * the comment step. */
  lemma UncommentClean(v: string)
    requires '#' !in v
    requires v == [] || (!IsSpace(v[0]) && !IsSpace(v[|v| - 1]))
    ensures Uncomment(v) == v && ParseValue(v) == Typed(v)
  {
    assert LStrip(v) == v;
    assert RStrip(v) == v;
  }

  /** `"""text"""` reads back as the text between the quotes. */
  lemma TripleQuoted(s: string)
    requires '#' !in s && '"' !in s
    ensures ParseValue(TRIPLE + s + TRIPLE) == SText(s)
  {
    var v := TRIPLE + s + TRIPLE;
    assert '#' !in v;
    UncommentClean(v);
    assert v[..3] == TRIPLE;
    var e := 3 + |s|;
    assert OccursAt(v, TRIPLE, e);
    forall j | 3 <= j < e
      ensures !OccursAt(v, TRIPLE, j)
    {
      assert v[j] == s[j - 3];
    }
    assert v[3..e] == s;
  }

  /** Text opened by `"""` and never closed loses its double quotes at both
    * ends. */
  lemma TypedUnclosed(v: string)
    requires StartsWith(v, TRIPLE)
    requires forall j :: 3 <= j < |v| ==> v[j] != '"'
    ensures Typed(v) == SText(StripChars(v, DOUBLE_QUOTE))
  {
    forall j | 3 <= j
      ensures !OccursAt(v, TRIPLE, j)
    {
      if j + |TRIPLE| <= |v| {
        assert v[j..j + |TRIPLE|][0] == v[j] != '"';
      }
    }
    NotFoundFrom(v, TRIPLE, 3);
  }

  /** The unclosed-quote rule on `"""text`. */
  lemma TypedUnclosedText(s: string)
    requires '"' !in s && |s| > 0
    ensures Typed(TRIPLE + s) == SText(s)
  {
    var v := TRIPLE + s;
    assert v[..3] == TRIPLE;
    TypedUnclosed(v);
    StripCharsAround(TRIPLE, s, "", DOUBLE_QUOTE);
    assert TRIPLE + s + "" == v;
  }

  /** Without a closing `"""` the text comes back with its quotes stripped. */
  lemma UnclosedTriple(s: string)
    requires '#' !in s && '"' !in s
    requires |s| > 0 && !IsSpace(s[|s| - 1])
    ensures ParseValue(TRIPLE + s) == SText(s)
  {
    assert '#' !in TRIPLE + s && (TRIPLE + s)[|TRIPLE + s| - 1] == s[|s| - 1];
    UncommentClean(TRIPLE + s);
    TypedUnclosedText(s);
  }

  /** The boolean rule. */
  lemma TypedBoolean(v: string)
    requires Lower(v) == "true" || Lower(v) == "false"
    ensures Typed(v) == SBool(Lower(v) == "true")
  {
    assert Lower(v)[0] == LowerChar(v[0]);
    assert !StartsWith(v, TRIPLE);
  }

  /** Any capitalisation of true and false gives the boolean. */
  lemma BooleanText(s: string)
    requires NoSpace(s) && '#' !in s
    requires Lower(s) == "true" || Lower(s) == "false"
    ensures ParseValue(s) == SBool(Lower(s) == "true")
  {
    UncommentClean(s);
    TypedBoolean(s);
  }

  /** A text that opens with a character other than a letter or a quote is
    * neither quoted nor a boolean. */
  lemma PlainStart(v: string)
    requires |v| > 0 && v[0] != '"' && !('a' <= LowerChar(v[0]) <= 'z')
    ensures !StartsWith(v, TRIPLE)
    ensures Lower(v) != "true" && Lower(v) != "false"
  {
    assert Lower(v)[0] == LowerChar(v[0]);
  }

  /** The digit rule. */
  lemma TypedDigits(v: string)
    requires IsDigits(v)
    ensures Typed(v) == SInt(DigitsValue(v))
  {
    assert IsDigit(v[0]);
    PlainStart(v);
  }

  /** Digits contain neither '#' nor '.'. */
  lemma DigitsArePlain(d: string)
    requires AllDigits(d)
    ensures '#' !in d && '.' !in d
  {
    forall i | 0 <= i < |d| ensures d[i] != '#' && d[i] != '.' { assert IsDigit(d[i]); }
  }

  /** `str(n)` of a natural number reads back as that integer. */
  lemma IntegerText(n: nat)
    ensures ParseValue(NatToString(n)) == SInt(n)
  {
    var s := NatToString(n);
    DigitsArePlain(s);
    assert IsDigit(s[0]) && IsDigit(s[|s| - 1]);
    UncommentClean(s);
    TypedDigits(s);
    NatToStringRoundTrip(n);
  }

  /** The fallback rule on text that opens with neither a letter, a digit
    * nor a quote, holds no '.' and does not end in a quote: it comes back
    * unchanged. */
  lemma TypedPlain(v: string)
    requires |v| > 0 && v[0] != '"' && v[0] != '\'' && !IsDigit(v[0]) && !('a' <= LowerChar(v[0]) <= 'z')
    requires '.' !in v && v[|v| - 1] !in QUOTES
    ensures Typed(v) == SText(v)
  {
    PlainStart(v);
    TypedFallback(v);
  }

  /** The fallback rule on a negative number. */
  lemma TypedNegative(n: nat)
    ensures Typed("-" + NatToString(n)) == SText("-" + NatToString(n))
  {
    var d := NatToString(n);
    var s := "-" + d;
    DigitsArePlain(d);
    assert s[|s| - 1] == d[|d| - 1];
    TypedPlain(s);
  }

  /** A minus sign is not a digit, so negative numbers stay text. */
  lemma NegativeStaysText(n: nat)
    ensures ParseValue("-" + NatToString(n)) == SText("-" + NatToString(n))
  {
    var d := NatToString(n);
    var s := "-" + d;
    DigitsArePlain(d);
    assert '#' !in s;
    assert IsDigit(s[|s| - 1]) by { assert s[|s| - 1] == d[|d| - 1]; }
    UncommentClean(s);
    TypedNegative(n);
  }

  /** The decimal rule. */
  lemma TypedDecimal(v: string, x: real)
    requires |v| > 0 && IsDigit(v[0]) && !IsDigits(v)
    requires '.' in v && ParseDecimal(v) == Some(x)
    ensures Typed(v) == SFloat(x)
  {
    PlainStart(v);
  }

  /** Text that starts and ends with a digit, is not all digits, holds a
    * '.' and parses as a decimal reads as that number. */
  lemma DecimalText(s: string, x: real)
    requires '#' !in s && '.' in s && !IsDigits(s)
    requires |s| > 0 && IsDigit(s[0]) && IsDigit(s[|s| - 1])
    requires ParseDecimal(s) == Some(x)
    ensures ParseValue(s) == SFloat(x)
  {
    UncommentClean(s);
    TypedDecimal(s, x);
  }

  /** The last rule: text matching none of the others loses the quotes at
    * its ends. */
  lemma TypedFallback(v: string)
    requires !StartsWith(v, TRIPLE) && Lower(v) != "true" && Lower(v) != "false"
    requires !IsDigits(v) && '.' !in v
    ensures Typed(v) == SText(StripChars(v, QUOTES))
  {
  }

  /** The fallback rule on text in single quotes. */
  lemma TypedQuoted(v: string, s: string)
    requires v == "'" + s + "'"
    requires '.' !in s
    requires |s| > 0 && s[0] !in QUOTES && s[|s| - 1] !in QUOTES
    ensures Typed(v) == SText(s)
  {
    assert v[0] == '\'';
    PlainStart(v);
    TypedFallback(v);
    StripCharsAround("'", s, "'", QUOTES);
  }

  /** Other text comes back without the quotes around it. */
  lemma QuotedText(s: string)
    requires '#' !in s && '.' !in s
    requires |s| > 0 && s[0] !in QUOTES && s[|s| - 1] !in QUOTES
    ensures ParseValue("'" + s + "'") == SText(s)
  {
    var v := "'" + s + "'";
    assert v[0] == '\'' && v[|v| - 1] == '\'';
    assert '#' !in v;
    UncommentClean(v);
    TypedQuoted(v, s);
  }

  /* ---------------------------------------------------------------- */
  /* load_settings                                                     */
  /* ---------------------------------------------------------------- */

  /** The settings every installation has unless the file overrides them. */
  const DEFAULTS: Dict<Setting> := [
    ("DEBUG_MODE", SText("development")),
    ("SERVER_PORT", SInt(5050)),
    ("SERVER_HOST", SText("0.0.0.0")),
    ("CACHE_SECONDS", SInt(60)),
    ("LOG_LEVEL", SText("DEBUG")),
    ("LOG_FILE_ENABLED", SBool(true)),
    ("LOG_FORMAT", SText("%(asctime)s - %(name)s - %(levelname)s - %(message)s")),
    ("LOG_LEVEL_DEBUG", SText("DEBUG, %(asctime)s - %(name)s - %(levelname)s - %(message)s")),
    ("LOG_LEVEL_INFO", SText("INFO, %(asctime)s - %(name)s - %(levelname)s - %(message)s")),
    ("COMMAND_TIMEOUT", SInt(10))]

  /** The keys the file must provide. */
  const REQUIRED: seq<string> := [
    "UPS_HOST", "UPS_NAME", "UPS_USER", "UPS_PASSWORD", "UPS_COMMAND",
    "UPS_REALPOWER_NOMINAL", "UPSCMD_COMMAND", "UPSCMD_USER", "UPSCMD_PASSWORD",
    "DB_NAME", "INSTANCE_PATH", "TIMEZONE",
    "MSMTP_PATH", "TLS_CERT_PATH"]

  /** The assignment one line makes: none for blank lines, comment lines
    * and lines without '='; otherwise the stripped text before the first
    * '=' and the parsed text after it. */
  function LineEntry(line: string): (r: Option<(string, Setting)>)
    ensures r.Some? <==> Strip(line) != [] && Strip(line)[0] != '#' && '=' in Strip(line)
  {
    var l := Strip(line);
    if l == [] || l[0] == '#' then None
    else match SplitFirst(l, '=')
      case None => None
      case Some(p) => Some((Strip(p.0), ParseValue(p.1)))
  }

  /** `KEY=value` assigns the parsed value to the key; the value is cut at
    * the first '=' only, so it may contain further ones. */
  lemma LineAssigns(key: string, value: string)
    requires key != [] && NoSpace(key) && key[0] != '#' && '=' !in key
    requires value == [] || !IsSpace(value[|value| - 1])
    ensures LineEntry(key + "=" + value) == Some((key, ParseValue(value)))
  {
    var line := key + "=" + value;
    assert !IsSpace(line[0]) && line[0] == key[0];
    assert LStrip(line) == line;
    RStripAround(key, '=', value);
    assert RStrip(value) == value;
    SplitFirstOf(key, '=', value);
    StripNoSpace(key);
  }

  /** An assignment that does not set `k`. */
  predicate Skips(e: Option<(string, Setting)>, k: string)
  {
    e.None? || e.value.0 != k
  }

  /** One assignment applied to the settings. */
  function Step(settings: Dict<Setting>, e: Option<(string, Setting)>): Dict<Setting>
  {
    match e
    case None => settings
    case Some(kv) => Put(settings, kv.0, kv.1)
  }

  /** The settings after the given assignments, in order. */
  function Assign(settings: Dict<Setting>, es: seq<Option<(string, Setting)>>): Dict<Setting>
    decreases |es|
  {
    if |es| == 0 then settings else Step(Assign(settings, es[..|es| - 1]), es[|es| - 1])
  }

  /** The assignments of the lines of a file. */
  function Entries(lines: seq<string>): (r: seq<Option<(string, Setting)>>)
    ensures |r| == |lines| && forall k :: 0 <= k < |lines| ==> r[k] == LineEntry(lines[k])
  {
    seq(|lines|, k requires 0 <= k < |lines| => LineEntry(lines[k]))
  }

  /** A key no assignment sets keeps the value it had. */
  lemma {:induction false} UnassignedKeeps(settings: Dict<Setting>, es: seq<Option<(string, Setting)>>, k: string)
    requires forall j :: 0 <= j < |es| ==> Skips(es[j], k)
    ensures Get(Assign(settings, es), k) == Get(settings, k)
    decreases |es|
  {
    if |es| > 0 {
      UnassignedKeeps(settings, es[..|es| - 1], k);
    }
  }

  /** The last assignment to a key decides its value, over defaults and
    * earlier lines alike. */
  lemma {:induction false} LastAssignmentWins(settings: Dict<Setting>, es: seq<Option<(string, Setting)>>, i: nat)
    requires i < |es| && es[i].Some?
    requires forall j :: i < j < |es| ==> Skips(es[j], es[i].value.0)
    ensures Get(Assign(settings, es), es[i].value.0) == Some(es[i].value.1)
    decreases |es|
  {
    if i < |es| - 1 {
      LastAssignmentWins(settings, es[..|es| - 1], i);
    }
  }

  /** The required keys that are not set, in the order they are listed. */
  function Missing(required: seq<string>, settings: Dict<Setting>): (r: seq<string>)
    ensures forall x :: x in r <==> x in required && !HasKey(settings, x)
    ensures |r| <= |required|
  {
    if |required| == 0 then []
    else (if HasKey(settings, required[0]) then [] else [required[0]]) + Missing(required[1..], settings)
  }

  /** `base / p` on POSIX paths: an absolute `p` replaces the base and an
    * empty `p` adds nothing. */
  function JoinPath(base: string, p: string): (r: string)
    ensures StartsWith(p, "/") ==> r == p
    ensures p == "" ==> r == base
    ensures p != "" && !StartsWith(p, "/") ==> StartsWith(r, base + "/") && EndsWith(r, p)
  {
    if StartsWith(p, "/") then p else if p == "" then base else base + "/" + p
  }

  /** How loading ends. */
  datatype Loaded =
    | Loaded(settings: Dict<Setting>)
    | FileMissing
    | MissingVariables(names: seq<string>)
    /** `INSTANCE_PATH` or `DB_NAME` is not text, which `Path` refuses. */
    | NotAPath

  /** The text of the `ValueError` for missing keys. */
  function MissingMessage(names: seq<string>): string
  {
    "Missing required configuration variables: " + Join(names, ", ")
  }

  /** The three derived entries added to the settings. */
  function Complete(settings: Dict<Setting>, instance: string, dbPath: string): (r: Dict<Setting>)
    ensures KeySet(settings) <= KeySet(r)
    ensures forall k :: k != "INSTANCE_PATH" && k != "DB_PATH" && k != "DB_URI" ==> Get(r, k) == Get(settings, k)
    ensures Get(r, "INSTANCE_PATH") == Some(SText(instance))
    ensures Get(r, "DB_PATH") == Some(SText(dbPath))
    ensures Get(r, "DB_URI") == Some(SText("sqlite:///" + dbPath))
  {
    var s1 := Put(settings, "INSTANCE_PATH", SText(instance));
    var s2 := Put(s1, "DB_PATH", SText(dbPath));
    Put(s2, "DB_URI", SText("sqlite:///" + dbPath))
  }

  /** The steps after the file has been read: the required keys are
    * checked, then the instance path, the database path and the database
    * URI are derived. */
  function Finish(settings: Dict<Setting>, base: string): (r: Loaded)
    ensures r.MissingVariables? <==> Missing(REQUIRED, settings) != []
    ensures r.MissingVariables? ==> r.names == Missing(REQUIRED, settings)
    ensures r.Loaded? ==> forall x :: x in REQUIRED ==> HasKey(r.settings, x)
    ensures r.Loaded? ==> forall k :: k != "INSTANCE_PATH" && k != "DB_PATH" && k != "DB_URI" ==>
      Get(r.settings, k) == Get(settings, k)
    ensures r.Loaded? ==> exists p ::
      (Get(r.settings, "DB_PATH") == Some(SText(p)) && Get(r.settings, "DB_URI") == Some(SText("sqlite:///" + p)))
  {
    var missing := Missing(REQUIRED, settings);
    if missing != [] then MissingVariables(missing)
    else
      assert "INSTANCE_PATH" in REQUIRED && "DB_NAME" in REQUIRED;
      var inst := Get(settings, "INSTANCE_PATH").value;
      var db := Get(settings, "DB_NAME").value;
      if !inst.SText? || !db.SText? then NotAPath
      else
        var instance := JoinPath(base, inst.s);
        var dbPath := JoinPath(JoinPath(base, instance), db.s);
        var r := Complete(settings, instance, dbPath);
        assert forall x :: x in REQUIRED ==> HasKey(settings, x);
        Loaded(r)
  }

  /** One more assignment extends the settings by one step. */
  lemma AssignNext(start: Dict<Setting>, es: seq<Option<(string, Setting)>>, i: nat)
    requires i < |es|
    ensures Assign(start, es[..i + 1]) == Step(Assign(start, es[..i]), es[i])
  {
    assert es[..i + 1][..i] == es[..i];
  }

  /** The loop of `load_settings`: each line's assignment, in order. */
  method AssignLines(start: Dict<Setting>, lines: seq<string>) returns (settings: Dict<Setting>)
    ensures settings == Assign(start, Entries(lines))
  {
    ghost var es := Entries(lines);
    settings := start;
    var i := 0;
    while i < |lines|
      invariant 0 <= i <= |lines|
      invariant settings == Assign(start, es[..i])
    {
      var e := LineEntry(lines[i]);
      AssignNext(start, es, i);
      settings := Step(settings, e);
      i := i + 1;
    }
    assert es[..i] == es;
  }

  /** `load_settings`: the defaults, overridden line by line by the file,
    * then checked and completed. */
  method LoadSettings(file: Option<seq<string>>, base: string) returns (r: Loaded)
    ensures file.None? ==> r == FileMissing
    ensures file.Some? ==> r == Finish(Assign(DEFAULTS, Entries(file.value)), base)
  {
    if file.None? {
      return FileMissing;
    }
    var settings := AssignLines(DEFAULTS, file.value);
    r := Finish(settings, base);
  }

  /** A key the file never assigns keeps its default; `SERVER_PORT`, for
    * one, stays 5050. */
  lemma DefaultsSurvive(lines: seq<string>, base: string)
    requires forall j :: 0 <= j < |lines| ==> Skips(LineEntry(lines[j]), "SERVER_PORT")
    requires Finish(Assign(DEFAULTS, Entries(lines)), base).Loaded?
    ensures Get(Finish(Assign(DEFAULTS, Entries(lines)), base).settings, "SERVER_PORT") == Some(SInt(5050))
  {
    var es := Entries(lines);
    UnassignedKeeps(DEFAULTS, es, "SERVER_PORT");
    DefaultPort();
    FinishKeeps(Assign(DEFAULTS, es), base, "SERVER_PORT");
  }

  /** Finishing touches only the three derived keys. */
  lemma FinishKeeps(settings: Dict<Setting>, base: string, k: string)
    requires Finish(settings, base).Loaded?
    requires k != "INSTANCE_PATH" && k != "DB_PATH" && k != "DB_URI"
    ensures Get(Finish(settings, base).settings, k) == Get(settings, k)
  {
  }

  lemma DefaultPort()
    ensures Get(DEFAULTS, "SERVER_PORT") == Some(SInt(5050))
  {
    assert DEFAULTS[0].0 != "SERVER_PORT" && DEFAULTS[1].0 == "SERVER_PORT";
  }
}
