/** The handful of Python string operations the system relies on:
  * `strip`, `split`, `replace('.', '_')`, `find`, `in`, `isdigit`, `lower`,
  * `int(...)` on digit strings, `float(...)` on decimal text and
  * `str(round(x, 2))`. */
module Text {
  import opened Wrappers

  /** Python's `str.isspace` restricted to the ASCII whitespace characters. */
  predicate IsSpace(c: char)
  {
    c == ' ' || c == '\t' || c == '\n' || c == '\r' || c as int == 11 || c as int == 12
  }

  /** `s.lstrip()` */
  function LStrip(s: string): (r: string)
    ensures |r| <= |s| && r == s[|s| - |r|..]
    ensures r == [] || !IsSpace(r[0])
    ensures forall i :: 0 <= i < |s| - |r| ==> IsSpace(s[i])
    decreases |s|
  {
    if |s| > 0 && IsSpace(s[0]) then LStrip(s[1..]) else s
  }

  /** `s.rstrip()` */
  function RStrip(s: string): (r: string)
    ensures |r| <= |s| && r == s[..|r|]
    ensures r == [] || !IsSpace(r[|r| - 1])
    ensures forall i :: |r| <= i < |s| ==> IsSpace(s[i])
    decreases |s|
  {
    if |s| > 0 && IsSpace(s[|s| - 1]) then RStrip(s[..|s| - 1]) else s
  }

  /** `s.strip()` */
  function Strip(s: string): string
  {
    RStrip(LStrip(s))
  }

  predicate NoSpace(s: string)
  {
    forall i :: 0 <= i < |s| ==> !IsSpace(s[i])
  }

  lemma StripNoSpace(s: string)
    requires NoSpace(s)
    ensures Strip(s) == s
  {
    assert LStrip(s) == s;
    assert RStrip(s) == s;
  }

  /** The index of the first `c` in `s`, if any (Python's `s.find(c)`). */
  function IndexOf(s: string, c: char): (r: Option<nat>)
    ensures r.None? <==> c !in s
    ensures r.Some? ==> r.value < |s| && s[r.value] == c && c !in s[..r.value]
    decreases |s|
  {
    if |s| == 0 then None
    else if s[0] == c then Some(0)
    else match IndexOf(s[1..], c)
      case None => None
      case Some(i) => Some(i + 1)
  }

  /** `s.split(c, 1)` when `c in s`. */
  function SplitFirst(s: string, c: char): (r: Option<(string, string)>)
    ensures r.None? <==> c !in s
    ensures r.Some? ==> c !in r.value.0 && s == r.value.0 + [c] + r.value.1
  {
    match IndexOf(s, c)
    case None => None
    case Some(i) =>
      assert s == s[..i] + [c] + s[i + 1..];
      Some((s[..i], s[i + 1..]))
  }

  /** `s.split(c)`: always at least one piece, none containing `c`. */
  function Split(s: string, c: char): (r: seq<string>)
    ensures |r| >= 1
    ensures forall k :: 0 <= k < |r| ==> c !in r[k]
    decreases |s|
  {
    match SplitFirst(s, c)
    case None => [s]
    case Some(p) => [p.0] + Split(p.1, c)
  }

  /** `s.replace(a, b)` for single characters. */
  function ReplaceChar(s: string, a: char, b: char): (r: string)
    ensures |r| == |s|
    ensures forall i :: 0 <= i < |s| ==> r[i] == if s[i] == a then b else s[i]
  {
    if |s| == 0 then [] else [if s[0] == a then b else s[0]] + ReplaceChar(s[1..], a, b)
  }

  /** `key.replace('.', '_')`, the rewrite every UPS variable name goes through. */
  function Underscored(key: string): (r: string)
    ensures '.' !in r
    ensures |r| == |key|
  {
    ReplaceChar(key, '.', '_')
  }

  lemma UnderscoredIdempotent(key: string)
    ensures Underscored(Underscored(key)) == Underscored(key)
  {
  }

  /** `sep.join(parts)` */
  function Join(parts: seq<string>, sep: string): (r: string)
    ensures |parts| == 1 ==> r == parts[0]
  {
    if |parts| == 0 then ""
    else if |parts| == 1 then parts[0]
    else parts[0] + sep + Join(parts[1..], sep)
  }

  /** `sub` occurs in `s` at position `i`. */
  predicate OccursAt(s: string, sub: string, i: nat)
  {
    i + |sub| <= |s| && s[i..i + |sub|] == sub
  }

  /** Python's `s.find(sub, start)`. */
  function FindFrom(s: string, sub: string, start: nat): (r: Option<nat>)
    ensures r.Some? ==> start <= r.value && OccursAt(s, sub, r.value)
    ensures r.Some? ==> forall j :: start <= j < r.value ==> !OccursAt(s, sub, j)
    ensures r.None? ==> forall j :: start <= j ==> !OccursAt(s, sub, j)
    decreases |s| - start
  {
    if start + |sub| > |s| then None
    else if OccursAt(s, sub, start) then Some(start)
    else FindFrom(s, sub, start + 1)
  }

  /** A text with no occurrence from `start` on is not found. */
  lemma NotFoundFrom(s: string, sub: string, start: nat)
    requires forall j :: start <= j ==> !OccursAt(s, sub, j)
    ensures FindFrom(s, sub, start) == None
  {
  }

  /** Python's `sub in s`. */
  predicate Contains(s: string, sub: string)
  {
    exists i: nat | i <= |s| :: OccursAt(s, sub, i)
  }

  function Find(s: string, sub: string): (r: Option<nat>)
    ensures r.Some? <==> Contains(s, sub)
  {
    FindFrom(s, sub, 0)
  }

  predicate StartsWith(s: string, prefix: string)
  {
    |prefix| <= |s| && s[..|prefix|] == prefix
  }

  predicate EndsWith(s: string, suffix: string)
  {
    |suffix| <= |s| && s[|s| - |suffix|..] == suffix
  }

  function LowerChar(c: char): char
  {
    if 'A' <= c <= 'Z' then (c as int + 32) as char else c
  }

  function UpperChar(c: char): char
  {
    if 'a' <= c <= 'z' then (c as int - 32) as char else c
  }

  /** `s.lower()` on ASCII letters. */
  function Lower(s: string): (r: string)
    ensures |r| == |s| && forall i :: 0 <= i < |s| ==> r[i] == LowerChar(s[i])
  {
    if |s| == 0 then [] else [LowerChar(s[0])] + Lower(s[1..])
  }

  /** `s.upper()` on ASCII letters. */
  function Upper(s: string): (r: string)
    ensures |r| == |s| && forall i :: 0 <= i < |s| ==> r[i] == UpperChar(s[i])
  {
    if |s| == 0 then [] else [UpperChar(s[0])] + Upper(s[1..])
  }

  predicate IsDigit(c: char)
  {
    '0' <= c <= '9'
  }

  /** Python's `s.isdigit()` on ASCII: non-empty and digits only. */
  predicate IsDigits(s: string)
  {
    |s| > 0 && forall i :: 0 <= i < |s| ==> IsDigit(s[i])
  }

  predicate AllDigits(s: string)
  {
    forall i :: 0 <= i < |s| ==> IsDigit(s[i])
  }

  /** `int(s)` for a string of decimal digits. */
  function DigitsValue(s: string): nat
    requires AllDigits(s)
  {
    if |s| == 0 then 0
    else DigitsValue(s[..|s| - 1]) * 10 + (s[|s| - 1] as int - '0' as int)
  }

  function DigitChar(d: nat): (c: char)
    requires d < 10
    ensures IsDigit(c) && c as int - '0' as int == d
  {
    ('0' as int + d) as char
  }

  /** `str(n)` for a natural number. */
  function NatToString(n: nat): (r: string)
    ensures IsDigits(r)
  {
    if n < 10 then [DigitChar(n)] else NatToString(n / 10) + [DigitChar(n % 10)]
  }

  /** `int(str(n)) == n`. */
  lemma {:induction false} NatToStringRoundTrip(n: nat)
    ensures DigitsValue(NatToString(n)) == n
  {
    if n >= 10 {
      NatToStringRoundTrip(n / 10);
      var s := NatToString(n);
      assert s[..|s| - 1] == NatToString(n / 10);
    }
  }

  /** `str(i)` for an integer. */
  function IntToString(i: int): string
  {
    if i < 0 then "-" + NatToString(-i) else NatToString(i)
  }

  /** The value of the digits after a decimal point: "25" is 0.25. */
  function Fraction(fp: string): (r: real)
    requires AllDigits(fp)
    ensures 0.0 <= r < 1.0
  {
    if |fp| == 0 then 0.0
    else ((fp[0] as int - '0' as int) as real + Fraction(fp[1..])) / 10.0
  }

  /** The digits and fraction of a decimal without sign: "12", "12.5", ".5", "12.". */
  function ParseUnsignedDecimal(s: string): Option<real>
  {
    match SplitFirst(s, '.')
    case None => if IsDigits(s) then Some(DigitsValue(s) as real) else None
    case Some(p) =>
      if (|p.0| > 0 || |p.1| > 0) && AllDigits(p.0) && AllDigits(p.1) then
        Some(DigitsValue(p.0) as real + Fraction(p.1))
      else None
  }

  /** Python's `float(s)` on decimal text: surrounding whitespace, an optional
    * sign, digits with at most one '.'. */
  function ParseDecimal(s: string): (r: Option<real>)
  {
    var t := Strip(s);
    if |t| > 0 && t[0] == '-' then
      match ParseUnsignedDecimal(t[1..])
      case None => None
      case Some(x) => Some(-x)
    else if |t| > 0 && t[0] == '+' then ParseUnsignedDecimal(t[1..])
    else ParseUnsignedDecimal(t)
  }

  /** Python's `round(x, 2)`, as a whole number of hundredths (halves round up). */
  function RoundCents(x: real): int
  {
    (x * 100.0 + 0.5).Floor
  }

  /** Python's `round(x, 2)`. */
  function Round2(x: real): (r: real)
    ensures x - 0.005 < r <= x + 0.005
  {
    RoundCents(x) as real / 100.0
  }

  lemma Round2OfCents(c: int)
    ensures Round2(c as real / 100.0) == c as real / 100.0
  {
    var y := c as real / 100.0;
    assert y * 100.0 == c as real;
    assert (c as real + 0.5).Floor == c;
  }

  /** The hundredths of `str(round(x, 2))`: "0", one digit, or two digits. */
  function CentsText(c: nat): (r: string)
    requires c < 100
  {
    if c == 0 then "0"
    else if c % 10 == 0 then [DigitChar(c / 10)]
    else [DigitChar(c / 10), DigitChar(c % 10)]
  }

  /** Python's `str(f)` for a non-negative float holding whole hundredths
    * `c / 100`: "200.0", "200.5", "200.25". */
  function FormatCents(c: nat): (r: string)
  {
    NatToString(c / 100) + "." + CentsText(c % 100)
  }

  lemma FractionValue(c: nat)
    requires c < 100
    ensures AllDigits(CentsText(c))
    ensures Fraction(CentsText(c)) == c as real / 100.0
  {
    var f := CentsText(c);
    if c == 0 {
    } else if c % 10 == 0 {
      assert f[1..] == [];
      assert c == 10 * (c / 10);
    } else {
      assert f[1..][1..] == [];
      assert Fraction(f[1..]) == (c % 10) as real / 10.0;
      assert c == 10 * (c / 10) + c % 10;
    }
  }

  /** Decimal text "ip.fp" made of digits reads as `int(ip) + 0.fp`. */
  lemma {:induction false} ParseDigitsDotDigits(ip: string, fp: string)
    requires IsDigits(ip) && AllDigits(fp)
    ensures ParseUnsignedDecimal(ip + "." + fp) == Some(DigitsValue(ip) as real + Fraction(fp))
  {
    var s := ip + "." + fp;
    assert '.' !in ip by {
      forall i | 0 <= i < |ip| ensures ip[i] != '.' { assert IsDigit(ip[i]); }
    }
    assert s[..|ip|] == ip;
    assert s[|ip|] == '.';
    assert IndexOf(s, '.') == Some(|ip|);
    assert s[|ip| + 1..] == fp;
  }

  lemma DigitsHaveNoSpace(s: string)
    requires AllDigits(s)
    ensures NoSpace(s)
  {
    forall i | 0 <= i < |s| ensures !IsSpace(s[i]) { assert IsDigit(s[i]); }
  }

  lemma ParseDecimalUnsigned(s: string)
    requires NoSpace(s) && |s| > 0 && IsDigit(s[0])
    ensures ParseDecimal(s) == ParseUnsignedDecimal(s)
  {
    StripNoSpace(s);
  }

  lemma CentsSplit(c: nat)
    ensures (c / 100) as real + (c % 100) as real / 100.0 == c as real / 100.0
  {
    var q, m := c / 100, c % 100;
    assert c == 100 * q + m;
    assert c as real == 100.0 * q as real + m as real;
  }

  lemma NoSpaceConcat(a: string, b: string)
    requires NoSpace(a) && NoSpace(b)
    ensures NoSpace(a + b)
  {
    forall i | 0 <= i < |a + b| ensures !IsSpace((a + b)[i]) {
      if i >= |a| { assert (a + b)[i] == b[i - |a|]; }
    }
  }

  /** `float(str(round(x, 2)))` gives back the rounded value. */
  lemma {:induction false} FormatCentsRoundTrip(c: nat)
    ensures ParseDecimal(FormatCents(c)) == Some(c as real / 100.0)
  {
    var ip := NatToString(c / 100);
    var fp := CentsText(c % 100);
    var s := FormatCents(c);
    FractionValue(c % 100);
    DigitsHaveNoSpace(ip);
    DigitsHaveNoSpace(fp);
    assert NoSpace(".");
    NoSpaceConcat(ip, ".");
    NoSpaceConcat(ip + ".", fp);
    assert s == ip + "." + fp;
    assert s[0] == ip[0] && IsDigit(ip[0]);
    ParseDecimalUnsigned(s);
    ParseDigitsDotDigits(ip, fp);
    var iv := DigitsValue(ip);
    var fv := Fraction(fp);
    assert iv == c / 100 by { NatToStringRoundTrip(c / 100); }
    assert fv == (c % 100) as real / 100.0;
    CentsSplit(c);
  }

  /** `float(s)` of a digit string is `int(s)`. */
  lemma ParseDigits(s: string)
    requires IsDigits(s)
    ensures ParseDecimal(s) == Some(DigitsValue(s) as real)
  {
    DigitsHaveNoSpace(s);
    StripNoSpace(s);
    assert IsDigit(s[0]);
    assert '.' !in s by {
      forall i | 0 <= i < |s| ensures s[i] != '.' { assert IsDigit(s[i]); }
    }
  }

  /** Python's `int(s)` on text: surrounding whitespace, an optional sign and
    * decimal digits; anything else is a `ValueError`, here `None`. */
  function ParseInt(s: string): (r: Option<int>)
    ensures r.Some? ==> |Strip(s)| > 0
  {
    var t := Strip(s);
    if |t| > 0 && t[0] == '-' then
      if IsDigits(t[1..]) then Some(-(DigitsValue(t[1..]) as int)) else None
    else if |t| > 0 && t[0] == '+' then
      if IsDigits(t[1..]) then Some(DigitsValue(t[1..])) else None
    else if IsDigits(t) then Some(DigitsValue(t)) else None
  }

  /** `int(str(n)) == n` through the text parser. */
  lemma ParseIntOfNat(n: nat)
    ensures ParseInt(NatToString(n)) == Some(n)
  {
    var s := NatToString(n);
    DigitsHaveNoSpace(s);
    StripNoSpace(s);
    NatToStringRoundTrip(n);
    assert IsDigit(s[0]);
  }

  /** `int(str(i)) == i` for every integer, negative ones included. */
  lemma IntToStringRoundTrip(i: int)
    ensures ParseInt(IntToString(i)) == Some(i)
  {
    if i < 0 {
      var d := NatToString(-i);
      var s := "-" + d;
      DigitsHaveNoSpace(d);
      assert NoSpace("-");
      NoSpaceConcat("-", d);
      StripNoSpace(s);
      NatToStringRoundTrip(-i);
      assert s[1..] == d;
    } else {
      ParseIntOfNat(i);
    }
  }

  /** Stripping adds no character. */
  lemma StripKeepsOut(s: string, c: char)
    requires c !in s
    ensures c !in Strip(s)
  {
    var l := LStrip(s);
    SliceKeepsOut(s, |s| - |l|, |s|, c);
    SliceKeepsOut(l, 0, |RStrip(l)|, c);
  }

  /** A slice has no character its text lacks. */
  lemma SliceKeepsOut(s: string, lo: nat, hi: nat, c: char)
    requires lo <= hi <= |s| && c !in s
    ensures c !in s[lo..hi]
  {
    forall i | 0 <= i < hi - lo ensures s[lo..hi][i] != c {
      assert s[lo..hi][i] == s[lo + i];
    }
  }

  /** The first split at `c` of a text whose prefix has no `c`. */
  lemma SplitFirstOf(x: string, c: char, y: string)
    requires c !in x
    ensures SplitFirst(x + [c] + y, c) == Some((x, y))
  {
    var s := x + [c] + y;
    assert s[|x|] == c && s[..|x|] == x && s[|x| + 1..] == y;
  }
}
