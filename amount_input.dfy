/** The amount field shared by the three expense modals: the keystroke filter
    `text.replace(/[^0-9.]/g, '')`, the "more than one decimal point" rejection
    (`split('.').length > 2`), the "valid number" message, and the
    "valid positive amount" test made on submit. */
module AmountInput {
  import opened Wrappers
  import opened Numbers
  import Text

  const ValidNumberMessage: string := "Please enter a valid number"
  const PositiveAmountMessage: string := "Please enter a valid positive amount"

  predicate IsNumericChar(c: char) {
    IsDigit(c) || c == '.'
  }

  predicate AllNumeric(s: string) {
    forall i :: 0 <= i < |s| ==> IsNumericChar(s[i])
  }

  predicate HasDigit(s: string) {
    exists i :: 0 <= i < |s| && IsDigit(s[i])
  }

  predicate HasNonZeroDigit(s: string) {
    exists i :: 0 <= i < |s| && IsDigit(s[i]) && s[i] != '0'
  }

  /** The number of occurrences of `c` in `s`. */
  function Count(s: string, c: char): nat {
    if s == [] then 0 else (if s[0] == c then 1 else 0) + Count(s[1..], c)
  }

  lemma {:induction false} CountAppend(a: string, b: string, c: char)
    ensures Count(a + b, c) == Count(a, c) + Count(b, c)
  {
    if a == [] {
      assert a + b == b;
    } else {
      assert (a + b)[1..] == a[1..] + b;
      CountAppend(a[1..], b, c);
    }
  }

  lemma {:induction false} CountZero(s: string, c: char)
    ensures Count(s, c) == 0 <==> forall i :: 0 <= i < |s| ==> s[i] != c
  {
    if s != [] {
      CountZero(s[1..], c);
      assert forall i :: 1 <= i < |s| ==> s[i] == s[1..][i - 1];
    }
  }

  /** `text.replace(/[^0-9.]/g, '')`: the digits and points of `text`, in order. */
  function KeepNumeric(text: string): (r: string)
    ensures AllNumeric(r) && |r| <= |text|
  {
    if text == [] then []
    else if IsNumericChar(text[0]) then [text[0]] + KeepNumeric(text[1..])
    else KeepNumeric(text[1..])
  }

  /** The filter works character by character: filtering a concatenation is
      concatenating the filtered parts, so the kept characters keep their order. */
  lemma {:induction false} KeepNumericAppend(a: string, b: string)
    ensures KeepNumeric(a + b) == KeepNumeric(a) + KeepNumeric(b)
  {
    if a == [] {
      assert a + b == b;
    } else {
      assert (a + b)[1..] == a[1..] + b;
      KeepNumericAppend(a[1..], b);
    }
  }

  /** Text made only of digits and points passes the filter unchanged. */
  lemma {:induction false} KeepNumericIdentity(s: string)
    requires AllNumeric(s)
    ensures KeepNumeric(s) == s
  {
    if s != [] { KeepNumericIdentity(s[1..]); }
  }

  /** Filtering is idempotent. */
  lemma KeepNumericIdempotent(text: string)
    ensures KeepNumeric(KeepNumeric(text)) == KeepNumeric(text)
  {
    KeepNumericIdentity(KeepNumeric(text));
  }

  /** No digit and no point is dropped: each one of `text` is kept. */
  lemma {:induction false} KeepNumericCount(text: string, c: char)
    requires IsNumericChar(c)
    ensures Count(KeepNumeric(text), c) == Count(text, c)
  {
    if text != [] { KeepNumericCount(text[1..], c); }
  }

  /** `s.split(sep)`: the pieces of `s` between occurrences of `sep`. */
  function Split(s: string, sep: char): (pieces: seq<string>)
    ensures |pieces| == Count(s, sep) + 1
    ensures forall k :: 0 <= k < |pieces| ==> sep !in pieces[k]
  {
    if s == [] then [[]]
    else
      var rest := Split(s[1..], sep);
      if s[0] == sep then [[]] + rest else [[s[0]] + rest[0]] + rest[1..]
  }

  /** `pieces.join(sep)`. */
  function Join(pieces: seq<string>, sep: char): string {
    if pieces == [] then []
    else if |pieces| == 1 then pieces[0]
    else pieces[0] + [sep] + Join(pieces[1..], sep)
  }

  /** Joining the pieces of a split gives back the text. */
  lemma {:induction false} JoinSplit(s: string, sep: char)
    ensures Join(Split(s, sep), sep) == s
  {
    if s != [] {
      JoinSplit(s[1..], sep);
      var rest := Split(s[1..], sep);
      if s[0] != sep {
        var pieces := Split(s, sep);
        if |rest| == 1 {
          assert pieces == [[s[0]] + rest[0]];
        } else {
          assert pieces[1..] == rest[1..];
          assert Join(rest, sep) == rest[0] + [sep] + Join(rest[1..], sep);
        }
      }
    }
  }

  /** What `handleAmountChange` keeps of a keystroke: the filtered text, or
      `None` when it holds more than one point (the change is then ignored). */
  function SanitizeAmount(text: string): (r: Option<string>)
    ensures r.Some? <==> Count(text, '.') <= 1
    ensures r.Some? ==> r.value == KeepNumeric(text) && AllNumeric(r.value)
  {
    var numeric := KeepNumeric(text);
    KeepNumericCount(text, '.');
    if |Split(numeric, '.')| > 2 then None else Some(numeric)
  }

  /** The error `handleAmountChange` shows for a kept value. */
  function AmountErrorFor(numeric: string): Option<string> {
    if IsNaN(numeric) && numeric != [] then Some(ValidNumberMessage) else None
  }

  /** The submit check `isNaN(n) || n <= 0`: the amount, when it is valid. */
  function PositiveAmount(amount: string): (r: Option<real>)
    ensures r.Some? <==> ParseFloat(amount).Some? && ParseFloat(amount).value > 0.0
    ensures r.Some? ==> r.value == ParseFloat(amount).value
  {
    match ParseFloat(amount)
    case Some(x) => if x <= 0.0 then None else Some(x)
    case None => None
  }

  /** A text of digits with at most one point is digits, or digits, a point
      and digits; `parseFloat` reads all of it. */
  lemma NumericShape(s: string) returns (ip: string, dot: bool, fp: string)
    requires AllNumeric(s) && Count(s, '.') <= 1
    ensures AllDigits(ip) && AllDigits(fp)
    ensures s == if dot then ip + "." + fp else ip
    ensures !dot ==> fp == []
    ensures ParseFloat(s) == if ip == [] && fp == [] then None else Some(DecimalValue(ip, fp))
  {
    ip := LeadingDigits(s);
    var rest := s[|ip|..];
    assert s == ip + rest;
    CountAppend(ip, rest, '.');
    dot := rest != [];
    if !dot {
      fp := [];
      ParseDigits(ip);
    } else {
      assert rest[0] == '.';
      var after := rest[1..];
      assert rest == "." + after;
      CountAppend(".", after, '.');
      CountZero(after, '.');
      assert AllDigits(after) by {
        forall i | 0 <= i < |after| ensures IsDigit(after[i]) {
          assert after[i] == s[|ip| + 1 + i];
        }
      }
      fp := after;
      ParseDigitsPoint(ip, fp);
    }
  }

  lemma HasDigitAppend(a: string, b: string)
    ensures HasDigit(a + b) <==> HasDigit(a) || HasDigit(b)
    ensures HasNonZeroDigit(a + b) <==> HasNonZeroDigit(a) || HasNonZeroDigit(b)
  {
    var ab := a + b;
    if HasDigit(ab) {
      var i :| 0 <= i < |ab| && IsDigit(ab[i]);
      if i >= |a| { assert b[i - |a|] == ab[i]; }
    }
    if HasNonZeroDigit(ab) {
      var i :| 0 <= i < |ab| && IsDigit(ab[i]) && ab[i] != '0';
      if i >= |a| { assert b[i - |a|] == ab[i]; }
    }
    if HasDigit(b) {
      var i :| 0 <= i < |b| && IsDigit(b[i]);
      assert ab[|a| + i] == b[i];
    }
    if HasNonZeroDigit(b) {
      var i :| 0 <= i < |b| && IsDigit(b[i]) && b[i] != '0';
      assert ab[|a| + i] == b[i];
    }
    if HasDigit(a) {
      var i :| 0 <= i < |a| && IsDigit(a[i]);
      assert ab[i] == a[i];
    }
    if HasNonZeroDigit(a) {
      var i :| 0 <= i < |a| && IsDigit(a[i]) && a[i] != '0';
      assert ab[i] == a[i];
    }
  }

  lemma DigitsHaveDigit(d: string)
    requires AllDigits(d)
    ensures HasDigit(d) <==> d != []
    ensures HasNonZeroDigit(d) <==> DigitsValue(d) > 0
  {
    DigitsValuePositive(d);
    if d != [] { assert IsDigit(d[0]); }
  }

  /** A text of digits with at most one point parses to a number exactly when
      it holds a digit; the number is never negative, and it is positive
      exactly when one of the digits is not zero. */
  lemma NumericParse(s: string)
    requires AllNumeric(s) && Count(s, '.') <= 1
    ensures ParseFloat(s).Some? <==> HasDigit(s)
    ensures ParseFloat(s).Some? ==> ParseFloat(s).value >= 0.0
    ensures ParseFloat(s).Some? ==> (ParseFloat(s).value > 0.0 <==> HasNonZeroDigit(s))
  {
    var ip, dot, fp := NumericShape(s);
    DigitsHaveDigit(ip);
    DigitsHaveDigit(fp);
    if dot {
      HasDigitAppend(ip + ".", fp);
      HasDigitAppend(ip, ".");
      assert !HasDigit(".");
      assert !HasNonZeroDigit(".");
    }
  }

  /** After a keystroke is accepted, the "valid number" error is shown exactly
      when the field holds a lone point: every other accepted text parses. */
  lemma AmountErrorOnlyForLonePoint(text: string)
    requires SanitizeAmount(text).Some?
    ensures AmountErrorFor(SanitizeAmount(text).value).Some? <==> SanitizeAmount(text).value == "."
  {
    var v := SanitizeAmount(text).value;
    NumericParse(v);
    var ip, dot, fp := NumericShape(v);
    DigitsHaveDigit(ip);
    DigitsHaveDigit(fp);
    if dot {
      HasDigitAppend(ip + ".", fp);
      HasDigitAppend(ip, ".");
    }
    assert !HasDigit(".");
  }
}
