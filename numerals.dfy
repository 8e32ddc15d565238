/**
 * Numbers as text: the decimal rendering of an integer (what an f-string
 * prints), `int(text)` and `Decimal(text)`.
 */
module Numerals {
  import opened Wrappers

  predicate IsDigit(c: char) {
    '0' <= c <= '9'
  }

  predicate AllDigits(s: string) {
    forall i :: 0 <= i < |s| ==> IsDigit(s[i])
  }

  function DigitValue(c: char): nat
    requires IsDigit(c)
  {
    c as int - '0' as int
  }

  function DigitChar(d: nat): (c: char)
    requires d < 10
    ensures IsDigit(c) && DigitValue(c) == d
  {
    ('0' as int + d) as char
  }

  /** The value of a string of decimal digits, most significant first. */
  function DigitsValue(s: string): nat
    requires AllDigits(s)
  {
    if s == [] then 0 else DigitsValue(s[..|s| - 1]) * 10 + DigitValue(s[|s| - 1])
  }

  function Pow10(n: nat): (p: nat)
    ensures p > 0
  {
    if n == 0 then 1 else 10 * Pow10(n - 1)
  }

  /** The shortest decimal rendering of `n`. */
  function NatToString(n: nat): (s: string)
    ensures s != [] && AllDigits(s)
  {
    if n < 10 then [DigitChar(n)] else NatToString(n / 10) + [DigitChar(n % 10)]
  }

  /** `str(i)` / `f"{i}"` for an integer. */
  function IntToString(i: int): (s: string)
    ensures s != [] && (s[0] == '-' || IsDigit(s[0])) && IsDigit(s[|s| - 1])
  {
    if i < 0 then "-" + NatToString(-i) else NatToString(i)
  }

  lemma IntToStringTen()
    ensures IntToString(10) == "10"
  {
    assert NatToString(1) == "1";
  }

  /** Reading back the digits of `n` gives `n`. */
  lemma {:induction false} NatToStringValue(n: nat)
    ensures DigitsValue(NatToString(n)) == n
  {
    if n >= 10 {
      var s := NatToString(n);
      assert s[..|s| - 1] == NatToString(n / 10);
      NatToStringValue(n / 10);
    }
  }

  /** An optional sign, and the text that follows it. */
  function SignAndBody(s: string): (bool, string) {
    if |s| > 0 && (s[0] == '-' || s[0] == '+') then (s[0] == '-', s[1..]) else (false, s)
  }

  /** `int(text)` on an optional sign followed by decimal digits; `None` where Python raises `ValueError`. */
  function ParseInt(s: string): Option<int> {
    var (negative, body) := SignAndBody(s);
    if body != [] && AllDigits(body) then
      Some(if negative then -(DigitsValue(body) as int) else DigitsValue(body) as int)
    else None
  }

  /** `int(str(i)) == i`. */
  lemma ParseIntOfIntToString(i: int)
    ensures ParseInt(IntToString(i)) == Some(i)
  {
    if i < 0 {
      NatToStringValue(-i);
      assert SignAndBody(IntToString(i)).1 == NatToString(-i);
    } else {
      NatToStringValue(i);
    }
  }

  /** The position of the first '.' in `s`, or `|s|` when there is none. */
  function DotIndex(s: string): (k: nat)
    ensures k <= |s|
    ensures forall i :: 0 <= i < k ==> s[i] != '.'
    ensures k < |s| ==> s[k] == '.'
  {
    if s == [] then 0 else if s[0] == '.' then 0 else 1 + DotIndex(s[1..])
  }

  lemma DotIndexOfDigits(s: string)
    requires AllDigits(s)
    ensures DotIndex(s) == |s|
  {
    if s != [] {
      assert s[0] != '.';
      assert AllDigits(s[1..]) by {
        forall i | 0 <= i < |s| - 1 ensures IsDigit(s[1..][i]) { assert s[1..][i] == s[i + 1]; }
      }
      DotIndexOfDigits(s[1..]);
    }
  }

  /**
   * `Decimal(text)` on an optional sign, decimal digits and an optional
   * fractional part (`12`, `-3.25`, `.5`, `7.`); `None` where Python raises
   * `InvalidOperation`.
   */
  function ParseDecimal(s: string): Option<real> {
    var (negative, body) := SignAndBody(s);
    var k := DotIndex(body);
    var whole := body[..k];
    var fraction := if k < |body| then body[k + 1..] else [];
    if AllDigits(whole) && AllDigits(fraction) && |whole| + |fraction| > 0 then
      var magnitude := DigitsValue(whole) as real
                       + DigitsValue(fraction) as real / Pow10(|fraction|) as real;
      Some(if negative then -magnitude else magnitude)
    else None
  }

  /** A run of digits, with an optional sign, reads as the integer it spells. */
  lemma ParseDecimalOfDigits(s: string, negative: bool, body: string)
    requires body != [] && AllDigits(body)
    requires s == (if negative then "-" + body else body)
    ensures ParseDecimal(s) == Some(if negative then -(DigitsValue(body) as real) else DigitsValue(body) as real)
  {
    assert SignAndBody(s) == (negative, body);
    DotIndexOfDigits(body);
    assert body[..|body|] == body;
    var fraction: string := [];
    assert DigitsValue(fraction) == 0 && Pow10(|fraction|) == 1;
    assert DigitsValue(body) as real + DigitsValue(fraction) as real / Pow10(|fraction|) as real
           == DigitsValue(body) as real;
  }

  /** `Decimal(str(i)) == i`. */
  lemma ParseDecimalOfIntToString(i: int)
    ensures ParseDecimal(IntToString(i)) == Some(i as real)
  {
    if i < 0 {
      NatToStringValue(-i);
      ParseDecimalOfDigits(IntToString(i), true, NatToString(-i));
    } else {
      NatToStringValue(i);
      ParseDecimalOfDigits(IntToString(i), false, NatToString(i));
    }
  }

  /** A text with anything but a sign, digits and one dot is not a number. */
  lemma ParseDecimalRejectsLetter(s: string, j: nat)
    requires j < |s| && !IsDigit(s[j]) && s[j] != '.' && s[j] != '-' && s[j] != '+'
    ensures ParseDecimal(s) == None
  {
    var (negative, body) := SignAndBody(s);
    var k := DotIndex(body);
    var off := |s| - |body|;
    assert off == 0 || off == 1;
    assert j >= off && body[j - off] == s[j];
    var jj := j - off;
    if jj < k {
      assert body[..k][jj] == s[j];
    } else {
      assert jj > k;
      assert body[k + 1..][jj - k - 1] == s[j];
    }
  }
}
