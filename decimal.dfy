/** `Integer.toString` for non-negative values, and the parser that inverts it. */
module Decimal {
  import opened Outcomes

  predicate IsDigit(c: char) {
    '0' <= c <= '9'
  }

  function DigitChar(d: nat): (c: char)
    requires d < 10
    ensures IsDigit(c)
  {
    ('0' as int + d) as char
  }

  function DigitValue(c: char): (d: nat)
    requires IsDigit(c)
    ensures d < 10 && DigitChar(d) == c
  {
    c as int - '0' as int
  }

  /** The decimal digits of `n`, most significant first, with no leading zero. */
  function DecimalString(n: nat): (s: string)
    ensures 1 <= |s|
    ensures forall i :: 0 <= i < |s| ==> IsDigit(s[i])
    ensures |s| == 1 <==> n < 10
    ensures s[0] == '0' ==> n == 0
    decreases n
  {
    if n < 10 then [DigitChar(n)] else DecimalString(n / 10) + [DigitChar(n % 10)]
  }

  /** The value of a non-empty string of decimal digits; None for anything else. */
  function ParseDecimal(s: string): (r: Option<nat>)
    ensures r.Some? <==> 1 <= |s| && forall i :: 0 <= i < |s| ==> IsDigit(s[i])
    decreases |s|
  {
    if |s| == 0 || !IsDigit(s[|s| - 1]) then None
    else if |s| == 1 then Some(DigitValue(s[0]))
    else match ParseDecimal(s[..|s| - 1])
      case None => None
      case Some(v) => Some(10 * v + DigitValue(s[|s| - 1]))
  }

  /** Parsing what `DecimalString` renders gives the number back. */
  lemma {:induction false} ParseDecimalString(n: nat)
    ensures ParseDecimal(DecimalString(n)) == Some(n)
    decreases n
  {
    if n >= 10 {
      var s := DecimalString(n);
      assert s[..|s| - 1] == DecimalString(n / 10);
      ParseDecimalString(n / 10);
    }
  }

  /** Rendering the value of a digit string without a leading zero gives the string back. */
  lemma {:induction false} DecimalStringOfParse(s: string)
    requires ParseDecimal(s).Some?
    requires |s| == 1 || s[0] != '0'
    ensures DecimalString(ParseDecimal(s).value) == s
    decreases |s|
  {
    if |s| > 1 {
      var prefix := s[..|s| - 1];
      var d := DigitValue(s[|s| - 1]);
      assert ParseDecimal(prefix).Some?;
      DecimalStringOfParse(prefix);
      var v := ParseDecimal(prefix).value;
      assert v >= 1;
      var n := 10 * v + d;
      assert n / 10 == v && n % 10 == d;
      assert s == prefix + [s[|s| - 1]];
    }
  }
}
