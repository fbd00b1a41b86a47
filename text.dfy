/**
 * The small pieces of the languages' string libraries the sonifier relies on:
 * decimal rendering of naturals, ASCII lower-casing, suffix tests and trims,
 * and the number parsers used on environment values and resource quantities.
 */
module Text {
  import opened Types

  predicate IsDigit(c: char) { '0' <= c <= '9' }

  function DigitValue(c: char): (d: nat)
    requires IsDigit(c)
    ensures d < 10
  {
    c as int - '0' as int
  }

  function DigitChar(d: nat): (c: char)
    requires d < 10
    ensures IsDigit(c) && DigitValue(c) == d
  {
    ('0' as int + d) as char
  }

  predicate IsHexDigit(c: char) { '0' <= c <= '9' || 'a' <= c <= 'f' || 'A' <= c <= 'F' }

  function HexDigitValue(c: char): (d: nat)
    requires IsHexDigit(c)
    ensures d < 16
  {
    if '0' <= c <= '9' then c as int - '0' as int
    else if 'a' <= c <= 'f' then c as int - 'a' as int + 10
    else c as int - 'A' as int + 10
  }

  predicate AllDigits(s: string) { forall i :: 0 <= i < |s| ==> IsDigit(s[i]) }

  /** The number a string of decimal digits denotes (most significant first). */
  function DigitsValue(s: string): nat
    requires AllDigits(s)
  {
    if s == [] then 0 else 10 * DigitsValue(s[..|s| - 1]) + DigitValue(s[|s| - 1])
  }

  /** The value of the digits after a decimal point: `0.d1d2...` is
      `(d1 + 0.d2...) / 10`. */
  function FractionValue(s: string): (v: real)
    requires AllDigits(s)
    ensures 0.0 <= v <= 1.0
  {
    if s == [] then 0.0 else (DigitValue(s[0]) as real + FractionValue(s[1..])) / 10.0
  }

  /** Decimal rendering of a natural number (`to_string` on an unsigned integer,
      `str` on a Python int). */
  function NatToString(n: nat): (s: string)
    ensures |s| >= 1 && AllDigits(s) && DigitsValue(s) == n
    ensures s[0] != '+' && s[0] != '-' && s[0] != '#'
    decreases n
  {
    if n < 10 then [DigitChar(n)]
    else
      var prefix := NatToString(n / 10);
      var s := prefix + [DigitChar(n % 10)];
      assert s[..|s| - 1] == prefix;
      s
  }

  lemma NatToStringExamples()
    ensures NatToString(0) == "0" && NatToString(15) == "15" && NatToString(255) == "255"
  {
    assert NatToString(1) == "1";
    assert NatToString(2) == "2";
    assert NatToString(25) == "2" + "5";
  }

  function LowerChar(c: char): char
  {
    if 'A' <= c <= 'Z' then (c as int - 'A' as int + 'a' as int) as char else c
  }

  /** ASCII lower-casing (`to_lowercase`, `str.lower`). */
  function ToLower(s: string): (r: string)
    ensures |r| == |s|
    ensures forall i :: 0 <= i < |s| ==> r[i] == LowerChar(s[i])
  {
    seq(|s|, i requires 0 <= i < |s| => LowerChar(s[i]))
  }

  predicate EndsWith(s: string, suffix: string)
  {
    |suffix| <= |s| && s[|s| - |suffix|..] == suffix
  }

  /** The first position of `c` in `s`, or `|s|` when there is none. */
  function IndexOf(s: string, c: char): (i: nat)
    ensures i <= |s|
    ensures i < |s| ==> s[i] == c
    ensures forall j :: 0 <= j < i ==> s[j] != c
  {
    if s == [] then 0
    else if s[0] == c then 0
    else 1 + IndexOf(s[1..], c)
  }

  /** `trim_start_matches(c)` / `lstrip(c)`: drops every leading `c`. */
  function TrimStart(s: string, c: char): (r: string)
    ensures |r| <= |s| && r == s[|s| - |r|..]
    ensures r == [] || r[0] != c
    ensures forall i :: 0 <= i < |s| - |r| ==> s[i] == c
  {
    if |s| > 0 && s[0] == c then TrimStart(s[1..], c) else s
  }

  /** `trim_end_matches(c)`: drops every trailing `c`. */
  function TrimEnd(s: string, c: char): (r: string)
    ensures |r| <= |s| && r == s[..|r|]
    ensures r == [] || r[|r| - 1] != c
    ensures forall i :: |r| <= i < |s| ==> s[i] == c
  {
    if |s| > 0 && s[|s| - 1] == c then TrimEnd(s[..|s| - 1], c) else s
  }

  /** `trim_end_matches(suffix)` for a non-empty string pattern: drops every
      trailing repetition of `suffix`. */
  function TrimEndSuffix(s: string, suffix: string): (r: string)
    requires |suffix| > 0
    ensures |r| <= |s| && r == s[..|r|]
    ensures !EndsWith(r, suffix)
    decreases |s|
  {
    if EndsWith(s, suffix) then TrimEndSuffix(s[..|s| - |suffix|], suffix) else s
  }

  /** Trimming a trailing `c` off a string whose own last character is not
      `c` gives the string back. */
  lemma TrimEndOne(d: string, c: char)
    requires d == [] || d[|d| - 1] != c
    ensures TrimEnd(d + [c], c) == d
  {
    assert (d + [c])[..|d|] == d;
  }

  /** Trimming a suffix off a string that does not itself end with it gives
      the string back. */
  lemma TrimEndSuffixOne(d: string, suffix: string)
    requires |suffix| > 0 && !EndsWith(d, suffix)
    ensures TrimEndSuffix(d + suffix, suffix) == d
  {
    var s := d + suffix;
    assert s[|s| - |suffix|..] == suffix;
    assert s[..|s| - |suffix|] == d;
  }

  /** Decimal number parsing, as shared by Rust's `f64` parsing and Python's
      `float`: an optional sign, digits, and an optional fractional part after a
      point, with at least one digit in all. Exponents, `inf`, `nan`, white
      space and digit separators are not accepted by this model. */
  function ParseDecimal(s: string): (r: Option<real>)
    ensures r.Some? ==> |s| > 0
  {
    var negative := |s| > 0 && s[0] == '-';
    var body := if |s| > 0 && (s[0] == '+' || s[0] == '-') then s[1..] else s;
    var dot := IndexOf(body, '.');
    var whole := body[..dot];
    var fraction := if dot < |body| then body[dot + 1..] else "";
    if AllDigits(whole) && AllDigits(fraction) && |whole| + |fraction| > 0 then
      var magnitude := DigitsValue(whole) as real + FractionValue(fraction);
      Some(if negative then -magnitude else magnitude)
    else
      None
  }

  /** A string that starts with a character other than a digit, a sign or a
      point is not a number. */
  lemma ParseDecimalRejectsLetter(s: string)
    requires |s| > 0 && !IsDigit(s[0]) && s[0] != '+' && s[0] != '-' && s[0] != '.'
    ensures ParseDecimal(s) == None
  {
    var dot := IndexOf(s, '.');
    if dot > 0 {
      assert !IsDigit(s[..dot][0]);
    }
  }

  const U64Limit: nat := 0x1_0000_0000_0000_0000

  /** `str::parse::<u64>`: an optional `+`, then one or more decimal digits
      whose value fits in 64 bits. */
  function ParseU64(s: string): (r: Option<nat>)
    ensures r.Some? ==> r.value < U64Limit
  {
    var body := if |s| > 0 && s[0] == '+' then s[1..] else s;
    if |body| > 0 && AllDigits(body) && DigitsValue(body) < U64Limit then Some(DigitsValue(body)) else None
  }

  /** Rendering a number and parsing it back gives the number. */
  lemma ParseU64RoundTrip(n: nat)
    requires n < U64Limit
    ensures ParseU64(NatToString(n)) == Some(n)
  {
  }

  /** Parsing the decimal rendering of a natural gives it back as a real. */
  lemma ParseDecimalOfNat(n: nat)
    ensures ParseDecimal(NatToString(n)) == Some(n as real)
  {
    var s := NatToString(n);
    assert forall i :: 0 <= i < |s| ==> s[i] != '.' by {
      forall i | 0 <= i < |s| ensures s[i] != '.' { assert IsDigit(s[i]); }
    }
    assert s[..|s|] == s;
  }
}
