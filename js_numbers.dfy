/**
 * The two number/text conversions of JavaScript the client relies on: `parseInt(text, 10) || 0`
 * (the part form's numeric fields) and the decimal rendering of an integer (`${n}` in a URL).
 */
module JsNumbers {

  /** ASCII white space that `parseInt` skips before the number. */
  predicate IsSpace(c: char) {
    c == ' ' || c == '\t' || c == '\n' || c == '\r' || c == '\U{000B}' || c == '\U{000C}'
  }

  predicate IsDigit(c: char) {
    '0' <= c <= '9'
  }

  predicate AllDigits(s: string) {
    forall i :: 0 <= i < |s| ==> IsDigit(s[i])
  }

  /** `s` without its leading white space. */
  function TrimStart(s: string): (r: string)
    ensures |r| <= |s| && r == s[|s| - |r|..]
    ensures forall i :: 0 <= i < |s| - |r| ==> IsSpace(s[i])
    ensures r != [] ==> !IsSpace(r[0])
  {
    if s != [] && IsSpace(s[0]) then TrimStart(s[1..]) else s
  }

  /** The longest prefix of `s` made of decimal digits. */
  function DigitPrefix(s: string): (r: string)
    ensures AllDigits(r) && r <= s
    ensures |r| < |s| ==> !IsDigit(s[|r|])
  {
    if s != [] && IsDigit(s[0]) then [s[0]] + DigitPrefix(s[1..]) else []
  }

  function DigitValue(c: char): nat
    requires IsDigit(c)
  {
    (c as int) - ('0' as int)
  }

  /** The value of a string of decimal digits, most significant first. */
  function DigitsValue(ds: string): nat
    requires AllDigits(ds)
  {
    if ds == [] then 0 else DigitsValue(ds[..|ds| - 1]) * 10 + DigitValue(ds[|ds| - 1])
  }

  /**
   * `parseInt(s, 10) || 0`: skip leading white space, read an optional sign and the longest run of
   * digits; no digits gives NaN, and NaN (like 0) is replaced by 0.
   */
  function ParseIntOrZero(s: string): (n: int)
    ensures var t := TrimStart(s);
            DigitPrefix(if t != [] && (t[0] == '-' || t[0] == '+') then t[1..] else t) == [] ==> n == 0
  {
    var t := TrimStart(s);
    var negative := t != [] && t[0] == '-';
    var rest := if t != [] && (t[0] == '-' || t[0] == '+') then t[1..] else t;
    var ds := DigitPrefix(rest);
    if ds == [] then 0 else if negative then -(DigitsValue(ds) as int) else DigitsValue(ds)
  }

  function DigitChar(d: nat): (c: char)
    requires d < 10
    ensures IsDigit(c) && DigitValue(c) == d
  {
    ('0' as int + d) as char
  }

  /** The decimal text of a natural number, without leading zeros. */
  function DecimalText(n: nat): (s: string)
    ensures s != [] && IsDigit(s[0])
  {
    if n < 10 then [DigitChar(n)] else DecimalText(n / 10) + [DigitChar(n % 10)]
  }

  /** JavaScript's rendering of an integer-valued number as text. */
  function IntText(n: int): (s: string)
    ensures s != []
  {
    if n < 0 then "-" + DecimalText(-n) else DecimalText(n)
  }

  lemma {:induction false} DecimalTextValue(n: nat)
    ensures AllDigits(DecimalText(n)) && DigitsValue(DecimalText(n)) == n
  {
    if n >= 10 {
      DecimalTextValue(n / 10);
      var s := DecimalText(n);
      assert s[..|s| - 1] == DecimalText(n / 10);
    }
  }

  lemma {:induction false} DigitPrefixOfDigits(s: string)
    requires AllDigits(s)
    ensures DigitPrefix(s) == s
  {
    if s != [] {
      DigitPrefixOfDigits(s[1..]);
    }
  }

  /** A non-empty run of digits parses to its value. */
  lemma ParseDigits(s: string)
    requires s != [] && AllDigits(s)
    ensures ParseIntOrZero(s) == DigitsValue(s)
  {
    assert IsDigit(s[0]);
    assert !IsSpace(s[0]) && s[0] != '-' && s[0] != '+';
    assert TrimStart(s) == s;
    DigitPrefixOfDigits(s);
    assert DigitPrefix(s) != [];
  }

  /** Reading back the decimal text of `n` gives `n`: typing a count into a numeric field stores it. */
  lemma ParseDecimalText(n: nat)
    ensures ParseIntOrZero(DecimalText(n)) == n
  {
    DecimalTextValue(n);
    ParseDigits(DecimalText(n));
  }

  /** The same for a negative number, written with a leading minus sign. */
  lemma ParseNegativeDecimalText(n: nat)
    ensures ParseIntOrZero("-" + DecimalText(n)) == -(n as int)
  {
    var d := DecimalText(n);
    var s := "-" + d;
    assert s[0] == '-' && !IsSpace(s[0]);
    assert TrimStart(s) == s;
    assert s[1..] == d;
    DecimalTextValue(n);
    DigitPrefixOfDigits(d);
    assert DigitPrefix(s[1..]) == d && d != [];
  }

  /** `IntText` and `ParseIntOrZero` are inverse on every integer. */
  lemma ParseIntText(n: int)
    ensures ParseIntOrZero(IntText(n)) == n
  {
    if n < 0 {
      assert IntText(n) == "-" + DecimalText(-n);
      ParseNegativeDecimalText(-n);
    } else {
      assert IntText(n) == DecimalText(n);
      ParseDecimalText(n);
    }
  }
}
