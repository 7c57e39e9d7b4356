/** Python's `float(str)` on plain decimal numerals, and the digit-string values behind it. */
module Numeric {
  import opened Wrappers
  import opened Text

  predicate IsDigit(c: char) {
    '0' <= c <= '9'
  }

  /** Every character is an ASCII digit (vacuously true of ""). */
  predicate AllDigits(s: string) {
    forall i :: 0 <= i < |s| ==> IsDigit(s[i])
  }

  /** Python's `str.isdigit()` on ASCII: non-empty and all digits. */
  predicate IsNumeral(s: string) {
    |s| > 0 && AllDigits(s)
  }

  /** The number a digit string denotes, read most significant digit first. */
  function DigitsValue(s: string): nat
    requires AllDigits(s)
  {
    if |s| == 0 then 0
    else DigitsValue(s[..|s| - 1]) * 10 + (s[|s| - 1] as int - '0' as int)
  }

  /** The value of the digits after a decimal point: "25" is 0.25. */
  function FractionValue(s: string): (r: real)
    requires AllDigits(s)
    ensures 0.0 <= r < 1.0
    decreases |s|
  {
    if |s| == 0 then 0.0 else ((s[0] as int - '0' as int) as real + FractionValue(s[1..])) / 10.0
  }

  /** Index of the first '.', or |s| when there is none. */
  function DotIndex(s: string): (k: nat)
    ensures k <= |s|
    ensures k < |s| ==> s[k] == '.'
    ensures forall j :: 0 <= j < k ==> s[j] != '.'
  {
    if |s| == 0 || s[0] == '.' then 0 else 1 + DotIndex(s[1..])
  }

  /** An unsigned numeral `digits[.digits]` with at least one digit in all:
      "12", "12.5", "12." and ".5" are numerals, "." and "1.2.3" are not. */
  function ParseUnsigned(s: string): Option<real> {
    var k := DotIndex(s);
    var whole := s[..k];
    var frac := if k < |s| then s[k + 1..] else "";
    if AllDigits(whole) && AllDigits(frac) && |whole| + |frac| > 0 then
      Some(DigitsValue(whole) as real + FractionValue(frac))
    else
      None
  }

  /** Python's `float(s)`: surrounding whitespace is ignored and one sign may lead;
      `None` stands for the ValueError raised on anything else. */
  function ParseFloat(s: string): Option<real> {
    var t := Strip(s);
    if |t| > 0 && (t[0] == '+' || t[0] == '-') then
      var m :- ParseUnsigned(t[1..]);
      Some(if t[0] == '-' then -m else m)
    else
      ParseUnsigned(t)
  }

  /** A non-negative decimal `whole.frac`: the shape the onboarding validators accept. */
  predicate IsDecimal(s: string) {
    || IsNumeral(s)
    || exists k :: 0 < k < |s| - 1 && s[k] == '.' && IsNumeral(s[..k]) && IsNumeral(s[k + 1..])
  }

  /** The value of a digit string `whole.frac` in the shape IsDecimal accepts. */
  function DecimalValue(s: string): real
    requires IsDecimal(s)
  {
    var k := DotIndex(s);
    var frac := if k < |s| then s[k + 1..] else "";
    assert AllDigits(s[..k]) && AllDigits(frac) by { DecimalPieces(s); }
    DigitsValue(s[..k]) as real + FractionValue(frac)
  }

  lemma DecimalPieces(s: string)
    requires IsDecimal(s)
    ensures var k := DotIndex(s);
            && k > 0
            && IsNumeral(s[..k])
            && (k < |s| ==> IsNumeral(s[k + 1..]))
  {
    var k := DotIndex(s);
    if IsNumeral(s) {
      assert forall j :: 0 <= j < |s| ==> s[j] != '.';
      assert k == |s|;
      assert s[..k] == s;
    } else {
      var p :| 0 < p < |s| - 1 && s[p] == '.' && IsNumeral(s[..p]) && IsNumeral(s[p + 1..]);
      forall j | 0 <= j < p
        ensures s[j] != '.'
      {
        assert s[..p][j] == s[j];
      }
      assert k == p;
    }
  }

  /** A decimal starts and ends with a digit, and every character is a digit or '.'. */
  lemma DecimalChars(s: string)
    requires IsDecimal(s)
    ensures IsDigit(s[0]) && IsDigit(s[|s| - 1])
    ensures forall i :: 0 <= i < |s| ==> IsDigit(s[i]) || s[i] == '.'
  {
    DecimalPieces(s);
    var k := DotIndex(s);
    assert s[..k][0] == s[0];
    if k < |s| {
      assert s[k + 1..][|s| - k - 2] == s[|s| - 1];
      forall i | 0 <= i < |s| ensures IsDigit(s[i]) || s[i] == '.' {
        if i < k { assert s[..k][i] == s[i]; }
        else if i > k { assert s[k + 1..][i - k - 1] == s[i]; }
      }
    } else {
      assert s[..k] == s;
    }
  }

  /** A string that starts with a digit and has no surrounding whitespace is parsed unsigned. */
  lemma ParseFloatOfTrimmed(s: string)
    requires |s| > 0 && IsDigit(s[0]) && !IsSpace(s[|s| - 1])
    ensures ParseFloat(s) == ParseUnsigned(s)
  {
    assert !IsSpace(s[0]);
    StripOfTrimmed(s);
  }

  lemma ParseUnsignedOfDecimal(s: string)
    requires IsDecimal(s)
    ensures ParseUnsigned(s) == Some(DecimalValue(s))
  {
    DecimalPieces(s);
    var k := DotIndex(s);
    var frac := if k < |s| then s[k + 1..] else "";
    assert AllDigits(s[..k]) && AllDigits(frac);
  }

  /** Every decimal in the validators' shape is a number for Python's `float`, with the
      value its digits denote; in particular it is never negative. */
  lemma ParseFloatOfDecimal(s: string)
    requires IsDecimal(s)
    ensures ParseFloat(s) == Some(DecimalValue(s))
    ensures DecimalValue(s) >= 0.0
  {
    DecimalChars(s);
    assert !IsSpace(s[|s| - 1]);
    ParseFloatOfTrimmed(s);
    ParseUnsignedOfDecimal(s);
  }
}
