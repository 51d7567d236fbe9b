/**
 * The decimal rendering of a count that the builder writes into both NbOfTxs fields
 * (Java's String.valueOf(int) on a list size), and the parser that reads it back.
 */
module DecimalText {
  import opened Wrappers

  predicate IsDigit(c: char) {
    '0' <= c <= '9'
  }

  predicate IsDigits(s: string) {
    |s| >= 1 && forall i :: 0 <= i < |s| ==> IsDigit(s[i])
  }

  /** The form String.valueOf gives a non-negative count: digits only, and no leading zero unless it is "0". */
  predicate IsCanonical(s: string) {
    IsDigits(s) && (s[0] != '0' || s == "0")
  }

  function DigitChar(d: nat): (c: char)
    requires d < 10
    ensures IsDigit(c) && DigitValue(c) == d
  {
    (48 + d) as char
  }

  function DigitValue(c: char): nat
    requires IsDigit(c)
  {
    c as int - 48
  }

  /** String.valueOf(n) for a non-negative n: its digits, most significant first, no leading zero. */
  function DecimalString(n: nat): (s: string)
    ensures IsCanonical(s)
    ensures s[0] == '0' <==> n == 0
    ensures n == 0 <==> s == "0"
    decreases n
  {
    if n < 10 then [DigitChar(n)] else DecimalString(n / 10) + [DigitChar(n % 10)]
  }

  /** The value of a string of decimal digits; None for the empty string or any non-digit. */
  function ParseDecimal(s: string): (r: Option<nat>)
    ensures r.Some? <==> IsDigits(s)
  {
    if s == [] || !IsDigit(s[|s| - 1]) then None
    else if |s| == 1 then Some(DigitValue(s[0]))
    else
      match ParseDecimal(s[..|s| - 1])
      case None => None
      case Some(v) => Some(10 * v + DigitValue(s[|s| - 1]))
  }

  /** Reading back what String.valueOf wrote gives the count. */
  lemma {:induction false} ParseDecimalString(n: nat)
    ensures ParseDecimal(DecimalString(n)) == Some(n)
  {
    if n >= 10 {
      var s := DecimalString(n);
      ParseDecimalString(n / 10);
      assert s[..|s| - 1] == DecimalString(n / 10);
    }
  }

  /** Two counts render to the same text exactly when they are equal. */
  lemma DecimalStringInjective(m: nat, n: nat)
    ensures DecimalString(m) == DecimalString(n) <==> m == n
  {
    ParseDecimalString(m);
    ParseDecimalString(n);
  }

  /** A digit string that does not start with '0' has a positive value. */
  lemma {:induction false} ParsePositive(s: string, v: nat)
    requires ParseDecimal(s) == Some(v) && s[0] != '0'
    ensures v >= 1
  {
    if |s| > 1 {
      var w :| ParseDecimal(s[..|s| - 1]) == Some(w);
      ParsePositive(s[..|s| - 1], w);
    }
  }

  /** Every canonical digit string (no leading zero, or "0" itself) is what String.valueOf writes for its value. */
  lemma {:induction false} DecimalStringOfParse(s: string, v: nat)
    requires ParseDecimal(s) == Some(v) && IsCanonical(s)
    ensures DecimalString(v) == s
  {
    if |s| > 1 {
      var prefix := s[..|s| - 1];
      var w :| ParseDecimal(prefix) == Some(w);
      ParsePositive(prefix, w);
      DecimalStringOfParse(prefix, w);
      assert v / 10 == w && v % 10 == DigitValue(s[|s| - 1]);
      assert s == prefix + [s[|s| - 1]];
    }
  }
}
