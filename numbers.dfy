/** Decimal text and numbers: `String(n)` for integers, and `parseFloat`,
    with amounts as exact decimals (`real`) and NaN as an absent result. */
module Numbers {
  import opened Wrappers
  import Text

  predicate IsDigit(c: char) {
    '0' <= c <= '9'
  }

  predicate AllDigits(s: string) {
    forall i :: 0 <= i < |s| ==> IsDigit(s[i])
  }

  function DigitValue(c: char): (d: nat)
    requires IsDigit(c)
    ensures d < 10
  {
    (c as int - '0' as int) as nat
  }

  function DigitChar(d: nat): (c: char)
    requires d < 10
    ensures IsDigit(c) && DigitValue(c) == d
  {
    ('0' as int + d) as char
  }

  /** The number a string of decimal digits denotes (most significant first). */
  function DigitsValue(s: string): nat
    requires AllDigits(s)
  {
    if s == [] then 0 else DigitsValue(s[..|s| - 1]) * 10 + DigitValue(s[|s| - 1])
  }

  function Pow10(n: nat): (p: nat)
    ensures p >= 1
  {
    if n == 0 then 1 else 10 * Pow10(n - 1)
  }

  /** `String(n)` for a natural number: its shortest decimal text. */
  function DecimalText(n: nat): (s: string)
    ensures |s| >= 1 && AllDigits(s)
    ensures |s| > 1 ==> s[0] != '0'
  {
    if n < 10 then [DigitChar(n)] else DecimalText(n / 10) + [DigitChar(n % 10)]
  }

  /** `String(n)` for an integer: a minus sign before the text of a negative one. */
  function IntText(n: int): (s: string)
    ensures |s| >= 1
    ensures s[0] == '-' <==> n < 0
    ensures var d := if n < 0 then s[1..] else s;
      AllDigits(d) && DigitsValue(d) == if n < 0 then -n else n
  {
    if n < 0 then
      DecimalTextValue(-n);
      assert ("-" + DecimalText(-n))[1..] == DecimalText(-n);
      "-" + DecimalText(-n)
    else
      DecimalTextValue(n);
      DecimalText(n)
  }

  /** Reading back what DecimalText wrote gives the number again. */
  lemma {:induction false} DecimalTextValue(n: nat)
    ensures DigitsValue(DecimalText(n)) == n
  {
    if n >= 10 {
      DecimalTextValue(n / 10);
      var s := DecimalText(n);
      assert s[..|s| - 1] == DecimalText(n / 10);
    }
  }

  /** DecimalText writes different numbers differently. */
  lemma DecimalTextInjective(m: nat, n: nat)
    requires DecimalText(m) == DecimalText(n)
    ensures m == n
  {
    DecimalTextValue(m);
    DecimalTextValue(n);
  }

  /** IntText writes different integers differently. */
  lemma IntTextInjective(m: int, n: int)
    requires IntText(m) == IntText(n)
    ensures m == n
  {
    if m < 0 && n < 0 {
      assert DecimalText(-m) == IntText(m)[1..];
      DecimalTextInjective(-m, -n);
    } else if m >= 0 && n >= 0 {
      DecimalTextInjective(m, n);
    }
  }

  /** The longest prefix of `s` made of decimal digits. */
  function LeadingDigits(s: string): (d: string)
    ensures |d| <= |s| && d == s[..|d|] && AllDigits(d)
    ensures |d| < |s| ==> !IsDigit(s[|d|])
  {
    if s == [] || !IsDigit(s[0]) then [] else [s[0]] + LeadingDigits(s[1..])
  }

  /** A sign at the head of `s`: whether it is negative, and what follows it. */
  function SplitSign(s: string): (bool, string) {
    if |s| > 0 && s[0] == '-' then (true, s[1..])
    else if |s| > 0 && s[0] == '+' then (false, s[1..])
    else (false, s)
  }

  /** The exponent of an `e`/`E` suffix at the head of `s`, or 0 when there is
      none (an `e` not followed by digits is not part of the number). */
  function ExponentOf(s: string): int {
    if |s| > 0 && (s[0] == 'e' || s[0] == 'E') then
      var (neg, rest) := SplitSign(s[1..]);
      var d := LeadingDigits(rest);
      var v: int := if d == [] then 0 else DigitsValue(d);
      if neg then -v else v
    else 0
  }

  /** `x` times ten to the power `e`. */
  function Scaled(x: real, e: int): (r: real)
    ensures e == 0 ==> r == x
    ensures x >= 0.0 ==> r >= 0.0
    ensures x > 0.0 ==> r > 0.0
  {
    if e >= 0 then x * Pow10(e) as real else x / Pow10(-e) as real
  }

  /** `ip.fp` as an exact decimal. */
  function DecimalValue(ip: string, fp: string): (r: real)
    requires AllDigits(ip) && AllDigits(fp)
    ensures r >= 0.0
    ensures r > 0.0 <==> DigitsValue(ip) > 0 || DigitsValue(fp) > 0
  {
    DigitsValue(ip) as real + DigitsValue(fp) as real / Pow10(|fp|) as real
  }

  /** The value of the unsigned number at the head of `u`: the longest prefix
      `digits[.digits][e[sign]digits]`, read as an exact decimal; `None` when
      there is no digit before the exponent. */
  function ParseMagnitude(u: string): Option<real> {
    var ip := LeadingDigits(u);
    var rest := u[|ip|..];
    var hasDot := |rest| > 0 && rest[0] == '.';
    var fp := if hasDot then LeadingDigits(rest[1..]) else [];
    if ip == [] && fp == [] then None
    else
      var tail := if hasDot then rest[1 + |fp|..] else rest;
      Some(Scaled(DecimalValue(ip, fp), ExponentOf(tail)))
  }

  /** `parseFloat(s)`: skip leading white space, read an optional sign and the
      number after it, ignore the rest; `None` (NaN) when there is no number. */
  function ParseFloat(s: string): Option<real> {
    var (neg, u) := SplitSign(Text.TrimStart(s));
    match ParseMagnitude(u)
    case None => None
    case Some(m) => Some(if neg then -m else m)
  }

  /** `isNaN(parseFloat(s))`. */
  predicate IsNaN(s: string) {
    ParseFloat(s).None?
  }

  /** Text that starts with neither white space nor a sign is read as an
      unsigned number. */
  lemma ParsePlain(s: string)
    requires s == [] || IsDigit(s[0]) || s[0] == '.'
    ensures ParseFloat(s) == ParseMagnitude(s)
  {
    if s != [] { assert !Text.IsSpace(s[0]); }
    assert Text.TrimStart(s) == s;
    assert SplitSign(s) == (false, s);
  }

  /** The digit prefix of digits followed by something else is those digits. */
  lemma {:induction false} LeadingDigitsStop(d: string, rest: string)
    requires AllDigits(d) && (rest == [] || !IsDigit(rest[0]))
    ensures LeadingDigits(d + rest) == d
  {
    if d == [] {
      assert d + rest == rest;
    } else {
      assert (d + rest)[1..] == d[1..] + rest;
      LeadingDigitsStop(d[1..], rest);
    }
  }

  /** `parseFloat` reads a text of digits as the number they denote. */
  lemma ParseDigits(d: string)
    requires AllDigits(d)
    ensures ParseFloat(d) == if d == [] then None else Some(DecimalValue(d, []))
  {
    ParsePlain(d);
    LeadingDigitsStop(d, []);
    assert d + [] == d;
    assert d[|d|..] == [];
  }

  /** `parseFloat` reads digits, a point and digits as the decimal they denote. */
  lemma ParseDigitsPoint(ip: string, fp: string)
    requires AllDigits(ip) && AllDigits(fp)
    ensures ParseFloat(ip + "." + fp) == if ip == [] && fp == [] then None else Some(DecimalValue(ip, fp))
  {
    var u := ip + "." + fp;
    var rest := "." + fp;
    assert u == ip + rest;
    if ip == [] { assert u[0] == '.'; } else { assert u[0] == ip[0]; }
    ParsePlain(u);
    LeadingDigitsStop(ip, rest);
    assert u[|ip|..] == rest;
    assert rest[1..] == fp;
    LeadingDigitsStop(fp, []);
    assert fp + [] == fp;
    assert rest[1 + |fp|..] == [];
  }

  /** Reading the text of a natural number gives that number. */
  lemma ParseDecimalText(n: nat)
    ensures ParseFloat(DecimalText(n)) == Some(n as real)
  {
    var s := DecimalText(n);
    ParseDigits(s);
    DecimalTextValue(n);
    assert DecimalValue(s, []) == n as real;
  }

  /** A positive decimal number denotes a positive value exactly when one of
      its digits is not zero. */
  lemma {:induction false} DigitsValuePositive(s: string)
    requires AllDigits(s)
    ensures DigitsValue(s) > 0 <==> exists i :: 0 <= i < |s| && s[i] != '0'
  {
    if s != [] {
      var p := s[..|s| - 1];
      DigitsValuePositive(p);
      if DigitsValue(p) > 0 {
        var i :| 0 <= i < |p| && p[i] != '0';
        assert s[i] == p[i];
      }
      if s[|s| - 1] == '0' {
        forall i | 0 <= i < |s| - 1 && s[i] != '0' ensures p[i] != '0' { }
      }
    }
  }
}
