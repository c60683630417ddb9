/** Connection settings for the UPS reader, lookup of optional readings and
  * the derivation of real power from load and nominal power. */
module UpsUtils {
  import opened Wrappers
  import opened Text
  import opened Dicts
  import opened Dynamic

  /** Python truthiness of an optional string: set and non-empty. */
  predicate Truthy(s: Option<string>)
  {
    s.Some? && s.value != ""
  }

  /** The process-wide connection settings (a singleton in the system). */
  class UPSConfig {
    var host: Option<string>
    var name: Option<string>
    var command: Option<string>
    var timeout: Option<int>
    var initialized: bool

    constructor ()
      ensures host == None && name == None && command == None && timeout == None
      ensures !initialized
    {
      host, name, command, timeout := None, None, None, None;
      initialized := false;
    }

    /** The configuration is usable: flagged and all three fields set. */
    predicate IsInitialized()
      reads this
    {
      initialized && Truthy(host) && Truthy(name) && Truthy(command)
    }

    /** Stores all four settings; the flag ignores the timeout. */
    method Configure(host': Option<string>, name': Option<string>, command': Option<string>, timeout': Option<int>)
      returns (ok: bool)
      modifies this
      ensures host == host' && name == name' && command == command' && timeout == timeout'
      ensures initialized == ok
      ensures ok <==> Truthy(host') && Truthy(name') && Truthy(command')
      ensures IsInitialized() == ok
    {
      host, name, command, timeout := host', name', command', timeout';
      initialized := Truthy(host') && Truthy(name') && Truthy(command');
      ok := initialized;
    }
  }

  /** `getattr(data, field, None)` unless it is None or '', else the default. */
  function GetSupportedValue(attr: Option<Value>, default: Value): (r: Value)
    ensures attr.Some? && attr.value != Str("") ==> r == attr.value
    ensures attr.None? || attr.value == Str("") ==> r == default
    ensures r == Str("") ==> default == Str("")
  {
    if attr.Some? && attr.value != Str("") then attr.value else default
  }

  const DOT_KEY := "ups.realpower"
  const UNDERSCORE_KEY := "ups_realpower"

  /** The first of `keys` present in `d`, and its value. */
  function FirstOf(d: Dict<string>, keys: seq<string>): (r: Option<string>)
    ensures r.Some? ==> exists i :: 0 <= i < |keys| && Get(d, keys[i]) == r
    ensures r.None? ==> forall i :: 0 <= i < |keys| ==> Get(d, keys[i]).None?
  {
    if |keys| == 0 then None
    else if Get(d, keys[0]).Some? then Get(d, keys[0])
    else FirstOf(d, keys[1..])
  }

  /** The text of `str(round(x, 2))` for a positive power. */
  function PowerText(x: real): string
    requires x > 0.0
  {
    FormatCents(if RoundCents(x) >= 0 then RoundCents(x) else 0)
  }

  /** The derived power `nominal * load / 100`, or `None` when the reading is
    * kept: an existing non-zero value, load or nominal not positive, or a
    * value that does not parse (the exception path). */
  function DerivedRealpower(data: Dict<string>, settingsNominal: real): (r: Option<real>)
    ensures r.Some? ==> r.value > 0.0
  {
    var cur := FirstOf(data, [DOT_KEY, UNDERSCORE_KEY]);
    if cur.Some? && (ParseDecimal(cur.value).None? || ParseDecimal(cur.value).value != 0.0) then None
    else
      var load := FirstOf(data, ["ups.load", "ups_load"]);
      var loadPct := if load.None? then Some(0.0) else ParseDecimal(load.value);
      var nominal := FirstOf(data, ["ups.realpower.nominal", "ups_realpower_nominal", "UPS_REALPOWER_NOMINAL"]);
      var nominalPower := if nominal.None? then Some(settingsNominal) else ParseDecimal(nominal.value);
      if loadPct.None? || nominalPower.None? then None
      else if loadPct.value > 0.0 && nominalPower.value > 0.0 then Some(LoadShare(nominalPower.value, loadPct.value))
      else None
  }

  /** `nominal_power * load_percent / 100` */
  function LoadShare(nominal: real, loadPct: real): (p: real)
    requires nominal > 0.0 && loadPct > 0.0
    ensures p > 0.0
    ensures loadPct <= 100.0 ==> p <= nominal
  {
    nominal * loadPct / 100.0
  }

  /** `calculate_realpower`: fills in both real-power keys from load and
    * nominal power when the UPS reports none or zero, and changes nothing else. */
  function CalculateRealpower(data: Dict<string>, settingsNominal: real): (r: Dict<string>)
    ensures forall k :: k != DOT_KEY && k != UNDERSCORE_KEY ==> Get(r, k) == Get(data, k)
    ensures DerivedRealpower(data, settingsNominal).None? ==> r == data
    ensures DerivedRealpower(data, settingsNominal).Some? ==>
      var p := DerivedRealpower(data, settingsNominal).value;
      p > 0.0 && Get(r, DOT_KEY) == Get(r, UNDERSCORE_KEY) == Some(PowerText(p))
  {
    match DerivedRealpower(data, settingsNominal)
    case None => data
    case Some(p) =>
      var text := PowerText(p);
      Put(Put(data, DOT_KEY, text), UNDERSCORE_KEY, text)
  }

  /** A derived value reads back, through `float(...)`, as the rounded power:
    * with `cents` the hundredths of `round(p, 2)`, the stored text is the
    * text of `cents / 100` and parses to that number. */
  lemma DerivedRealpowerReadsBack(data: Dict<string>, settingsNominal: real, p: real, cents: nat)
    requires DerivedRealpower(data, settingsNominal) == Some(p)
    requires cents == RoundCents(p)
    ensures Round2(p) == cents as real / 100.0
    ensures Get(CalculateRealpower(data, settingsNominal), UNDERSCORE_KEY) == Some(FormatCents(cents))
    ensures ParseDecimal(FormatCents(cents)) == Some(cents as real / 100.0)
  {
    assert PowerText(p) == FormatCents(cents);
    FormatCentsRoundTrip(cents);
  }

  /** A UPS that already reports a non-zero real power keeps it, whatever the
    * load and nominal power say; the dotted key is consulted first. */
  lemma ReportedRealpowerKept(data: Dict<string>, settingsNominal: real, x: real)
    requires Get(data, DOT_KEY).Some? && ParseDecimal(Get(data, DOT_KEY).value) == Some(x)
    requires x != 0.0
    ensures CalculateRealpower(data, settingsNominal) == data
  {
    assert FirstOf(data, [DOT_KEY, UNDERSCORE_KEY]) == Get(data, DOT_KEY);
  }
}
