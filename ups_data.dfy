/** Reading the UPS: parsing the `upsc` listing, converting it to database
  * keys and values, and the hourly and daily windows over stored rows. */
module UpsData {
  import opened Wrappers
  import opened Text
  import opened Dicts
  import opened Clock
  import opened Dynamic
  import opened UpsUtils

  /** What running the reader command produced: its exit code and output
    * lines, or the exception raised (timeout, missing program). */
  datatype ProcResult = Completed(returncode: int, stdout: seq<string>, stderr: string) | Raised(message: string)

  const DEFAULT_COMMAND := "/usr/bin/upsc"
  const NOT_INITIALIZED_MSG := "UPS configuration not initialized. Make sure configure_ups() is called before using this function."
  const DATA_ERROR_PREFIX := "Failed to get UPS data: "

  /** One output line `key: value`, split at its first ':' and stripped. */
  function ParseLine(line: string): (r: Option<(string, string)>)
    ensures r.None? <==> ':' !in line
  {
    match SplitFirst(line, ':')
    case None => None
    case Some(p) => Some((Strip(p.0), Strip(p.1)))
  }

  /** The variables listed by the reader, built line by line. */
  function ParseLines(lines: seq<string>): Dict<string>
  {
    if |lines| == 0 then []
    else
      var acc := ParseLines(lines[..|lines| - 1]);
      match ParseLine(lines[|lines| - 1])
      case None => acc
      case Some(kv) => Put(acc, kv.0, kv.1)
  }

  /** The value of the last line whose key is `k`. */
  function LastValue(lines: seq<string>, k: string): Option<string>
  {
    if |lines| == 0 then None
    else
      var p := ParseLine(lines[|lines| - 1]);
      if p.Some? && p.value.0 == k then Some(p.value.1) else LastValue(lines[..|lines| - 1], k)
  }

  /** Later lines overwrite earlier ones: every variable ends with the value of
    * the last line that names it. */
  lemma {:induction false} ParseLinesLastWins(lines: seq<string>, k: string)
    ensures Get(ParseLines(lines), k) == LastValue(lines, k)
  {
    if |lines| > 0 {
      ParseLinesLastWins(lines[..|lines| - 1], k);
    }
  }

  /** The parse loop shared by `get_ups_data` and `get_available_variables`. */
  method ParseOutput(lines: seq<string>) returns (vars: Dict<string>)
    ensures vars == ParseLines(lines)
  {
    vars := [];
    var i := 0;
    while i < |lines|
      invariant 0 <= i <= |lines|
      invariant vars == ParseLines(lines[..i])
    {
      ghost var prefix := lines[..i + 1];
      assert prefix[..|prefix| - 1] == lines[..i] && prefix[|prefix| - 1] == lines[i];
      match ParseLine(lines[i]) {
        case None =>
        case Some(kv) => vars := Put(vars, kv.0, kv.1);
      }
      assert vars == ParseLines(prefix);
      i := i + 1;
    }
    assert lines[..|lines|] == lines;
  }

  /** `float(value)`, keeping the text when it does not parse. */
  function Convert(v: string): (r: Value)
    ensures r.Str? <==> ParseDecimal(v).None?
    ensures r.Num? ==> ParseDecimal(v) == Some(r.x)
  {
    match ParseDecimal(v)
    case Some(x) => Num(x)
    case None => Str(v)
  }

  /** The database form of the readings, entry by entry in dictionary order. */
  function Transformed(raw: Dict<string>): Dict<Value>
  {
    if |raw| == 0 then []
    else Put(Transformed(raw[..|raw| - 1]), Underscored(raw[|raw| - 1].0), Convert(raw[|raw| - 1].1))
  }

  /** The reading a database key ends with: that of the last raw key that
    * maps to it. */
  function LastConverted(raw: Dict<string>, k: string): Option<Value>
  {
    if |raw| == 0 then None
    else if Underscored(raw[|raw| - 1].0) == k then Some(Convert(raw[|raw| - 1].1))
    else LastConverted(raw[..|raw| - 1], k)
  }

  /** Every database key is dot-free, and two raw keys that differ only in
    * '.' versus '_' leave the later value. */
  lemma {:induction false} TransformedLastWins(raw: Dict<string>, k: string)
    ensures Get(Transformed(raw), k) == LastConverted(raw, k)
    ensures Get(Transformed(raw), k).Some? ==> '.' !in k
  {
    if |raw| > 0 {
      TransformedLastWins(raw[..|raw| - 1], k);
    }
  }

  /** The key/value transform loop of `get_ups_data`. */
  method Transform(raw: Dict<string>) returns (out: Dict<Value>)
    ensures out == Transformed(raw)
  {
    out := [];
    var i := 0;
    while i < |raw|
      invariant 0 <= i <= |raw|
      invariant out == Transformed(raw[..i])
    {
      assert raw[..i + 1][..i] == raw[..i];
      out := Put(out, Underscored(raw[i].0), Convert(raw[i].1));
      i := i + 1;
    }
    assert raw[..|raw|] == raw;
  }

  /** The fixed reading returned when the UPS name or host is not configured. */
  function Placeholder(): Dict<Value>
  {
    [("ups_status", Str("ERROR")), ("battery_charge", Num(0.0)), ("battery_runtime", Num(0.0)),
     ("input_voltage", Num(0.0)), ("output_voltage", Num(0.0))]
  }

  /** What `get_ups_data` returns for the configured name and host and the
    * reader's outcome. Every failure is reported as a data error. */
  function ReadOutcome(name: Option<string>, host: Option<string>, proc: ProcResult, nominal: real): (r: Result<Dict<Value>>)
    ensures r.Err? ==> StartsWith(r.error, DATA_ERROR_PREFIX)
    ensures (!Truthy(name) || !Truthy(host)) ==> r == Ok(Placeholder())
    ensures Truthy(name) && Truthy(host) && proc.Completed? && proc.returncode != 0 ==> r.Err?
  {
    if !Truthy(name) || !Truthy(host) then Ok(Placeholder())
    else match proc
      case Raised(m) => Err(DATA_ERROR_PREFIX + m)
      case Completed(code, out, err) =>
        if code != 0 then Err(DATA_ERROR_PREFIX + "Error connecting to UPS: " + err)
        else Ok(Transformed(CalculateRealpower(ParseLines(out), nominal)))
  }

  /** `get_ups_data`: defaults the command, then reads and converts. */
  method GetUpsData(config: UPSConfig, proc: ProcResult, nominal: real) returns (r: Result<Dict<Value>>)
    modifies config
    ensures config.command == if Truthy(old(config.command)) then old(config.command) else Some(DEFAULT_COMMAND)
    ensures config.host == old(config.host) && config.name == old(config.name)
    ensures config.timeout == old(config.timeout) && config.initialized == old(config.initialized)
    ensures r == ReadOutcome(config.name, config.host, proc, nominal)
  {
    if !Truthy(config.command) {
      config.command := Some(DEFAULT_COMMAND);
    }
    if !Truthy(config.name) || !Truthy(config.host) {
      return Ok(Placeholder());
    }
    match proc {
      case Raised(m) =>
        r := Err(DATA_ERROR_PREFIX + m);
      case Completed(code, out, err) =>
        if code != 0 {
          r := Err(DATA_ERROR_PREFIX + "Error connecting to UPS: " + err);
        } else {
          var raw := ParseOutput(out);
          raw := CalculateRealpower(raw, nominal);
          var converted := Transform(raw);
          r := Ok(converted);
        }
    }
  }

  /** A successful reading has only dot-free keys. */
  lemma ReadKeysUnderscored(name: Option<string>, host: Option<string>, proc: ProcResult, nominal: real, k: string)
    requires ReadOutcome(name, host, proc, nominal).Ok?
    requires k in Keys(ReadOutcome(name, host, proc, nominal).value)
    ensures '.' !in k
  {
    if !Truthy(name) || !Truthy(host) {
      PlaceholderDotFree(k);
    } else {
      var raw := CalculateRealpower(ParseLines(proc.stdout), nominal);
      TransformedLastWins(raw, k);
    }
  }

  lemma PlaceholderDotFree(k: string)
    requires k in Keys(Placeholder())
    ensures '.' !in k
  {
    var ph := Placeholder();
    var i :| 0 <= i < |ph| && Keys(ph)[i] == k;
    PlaceholderNameDotFree(i);
  }

  lemma PlaceholderNameDotFree(i: nat)
    requires i < |Placeholder()|
    ensures '.' !in Placeholder()[i].0
  {
    if i == 0 {
      assert '.' !in "ups_status";
    } else if i == 1 {
      assert '.' !in "battery_charge";
    } else if i == 2 {
      assert '.' !in "battery_runtime";
    } else if i == 3 {
      assert '.' !in "input_voltage";
    } else {
      assert '.' !in "output_voltage";
    }
  }

  /** `get_available_variables`: the raw listing, refused before configuration.
    * It does not look at the exit code. */
  method GetAvailableVariables(config: UPSConfig, proc: ProcResult) returns (r: Result<Dict<string>>)
    ensures !config.IsInitialized() ==> r == Err(NOT_INITIALIZED_MSG)
    ensures config.IsInitialized() && proc.Raised? ==> r == Err(proc.message)
    ensures config.IsInitialized() && proc.Completed? ==> r == Ok(ParseLines(proc.stdout))
  {
    if !config.IsInitialized() {
      return Err(NOT_INITIALIZED_MSG);
    }
    match proc {
      case Raised(m) => r := Err(m);
      case Completed(_, out, _) =>
        var vars := ParseOutput(out);
        r := Ok(vars);
    }
  }

  /** The non-null hourly averages stored for the day before `now`. */
  function PreviousDayHours(rows: seq<Row>, now: int): seq<real>
  {
    Window(rows, "ups_realpower_hrs", Truncate(now - DAY, DAY), Truncate(now - DAY, DAY) + DAY)
  }

  /** The record `calculate_daily_power` writes for the day before `now`:
    * the rounded mean of that day's hourly values, at its midnight. */
  function DailyRecord(rows: seq<Row>, now: int): (r: Option<Row>)
    ensures r.Some? ==> r.value.ts % DAY == 0 && r.value.ts <= now - DAY < r.value.ts + DAY
    ensures r.Some? <==> |PreviousDayHours(rows, now)| > 0
  {
    var start := Truncate(now - DAY, DAY);
    var hrs := PreviousDayHours(rows, now);
    if |hrs| == 0 then None
    else Some(Row(start, map["ups_realpower_days" := Num(Round2(Mean(hrs)))]))
  }

  /** `calculate_daily_power`: appends the daily record, or nothing when there
    * are no hourly values or the transaction fails. */
  method CalculateDailyPower(table: Table, now: int, commitOk: bool)
    modifies table
    ensures table.rows == match DailyRecord(old(table.rows), now)
      case None => old(table.rows)
      case Some(rec) => if commitOk then old(table.rows) + [rec] else old(table.rows)
  {
    var rec := DailyRecord(table.rows, now);
    if rec.Some? && commitOk {
      table.rows := table.rows + [rec.value];
    }
  }

  /** The daily value stays within the range of the hourly values it averages,
    * up to the rounding to hundredths. */
  lemma DailyWithinHourlyRange(rows: seq<Row>, now: int, lo: real, hi: real)
    requires DailyRecord(rows, now).Some?
    requires forall i :: 0 <= i < |PreviousDayHours(rows, now)| ==> lo <= PreviousDayHours(rows, now)[i] <= hi
    ensures var d := DailyRecord(rows, now).value.cols["ups_realpower_days"].x;
      lo - 0.005 < d <= hi + 0.005
  {
    MeanBounds(PreviousDayHours(rows, now), lo, hi);
  }

  /** `get_hourly_power`: the rows of the clock hour containing `t`, in table order. */
  function HourlyRows(rows: seq<Row>, t: int): (r: seq<Row>)
    ensures forall row :: row in r ==> row in rows && Truncate(t, HOUR) <= row.ts < Truncate(t, HOUR) + HOUR
    ensures forall i :: 0 <= i < |rows| && Truncate(t, HOUR) <= rows[i].ts < Truncate(t, HOUR) + HOUR ==> rows[i] in r
  {
    if |rows| == 0 then []
    else
      var rest := HourlyRows(rows[1..], t);
      var h := Truncate(t, HOUR);
      assert forall i :: 1 <= i < |rows| ==> rows[i] == rows[1..][i - 1];
      if h <= rows[0].ts < h + HOUR then [rows[0]] + rest else rest
  }
}
