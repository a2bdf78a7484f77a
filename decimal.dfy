/** Decimal digit strings: how Python's str() and f-strings render a
    non-negative integer, and the reading back of such a string. */
module Decimal {
  import opened Options

  predicate IsDigit(c: char) {
    '0' <= c <= '9'
  }

  predicate AllDigits(s: string) {
    forall i :: 0 <= i < |s| ==> IsDigit(s[i])
  }

  /** A digit string as str() renders a non-negative int: at least one
      digit and no leading zero unless the number is 0 itself. */
  predicate CanonicalDigits(s: string) {
    |s| >= 1 && AllDigits(s) && (|s| > 1 ==> s[0] != '0')
  }

  function DigitValue(c: char): (d: nat)
    requires IsDigit(c)
    ensures d < 10
  {
    c as int - '0' as int
  }

  /** The character that renders the single digit d. */
  function DigitChar(d: nat): (c: char)
    requires d < 10
    ensures IsDigit(c) && DigitValue(c) == d
  {
    ('0' as int + d) as char
  }

  /** The shortest decimal rendering of n: at least one digit, no leading zero. */
  function NatToString(n: nat): (s: string)
    ensures CanonicalDigits(s)
    ensures n < 10 <==> |s| == 1
    decreases n
  {
    if n < 10 then [DigitChar(n)] else NatToString(n / 10) + [DigitChar(n % 10)]
  }

  /** The number a string of digits denotes, most significant digit first. */
  function DigitsValue(s: string): nat
    requires AllDigits(s)
  {
    if s == [] then 0 else DigitsValue(s[..|s| - 1]) * 10 + DigitValue(s[|s| - 1])
  }

  /** Reads a non-empty digit string back into a number; anything else fails. */
  function ParseNat(s: string): Option<nat> {
    if |s| >= 1 && AllDigits(s) then Some(DigitsValue(s)) else None
  }

  /** Rendering a number and reading it back gives the number. */
  lemma {:induction false} ParseNatToString(n: nat)
    ensures ParseNat(NatToString(n)) == Some(n)
  {
    var s := NatToString(n);
    if n < 10 {
      assert s[..0] == [];
      assert DigitsValue(s) == DigitValue(DigitChar(n));
    } else {
      ParseNatToString(n / 10);
      assert s[..|s| - 1] == NatToString(n / 10);
      assert DigitsValue(s) == (n / 10) * 10 + DigitValue(DigitChar(n % 10));
    }
  }

  /** A digit string that starts with a non-zero digit denotes a positive number. */
  lemma {:induction false} LeadingDigitPositive(s: string)
    requires |s| >= 1 && AllDigits(s) && s[0] != '0'
    ensures DigitsValue(s) >= 1
  {
    if |s| > 1 {
      LeadingDigitPositive(s[..|s| - 1]);
    }
  }

  /** The rendering is the only canonical digit string with its value. */
  lemma {:induction false} CanonicalDigitsUnique(s: string, n: nat)
    requires CanonicalDigits(s) && DigitsValue(s) == n
    ensures s == NatToString(n)
  {
    var last := s[|s| - 1];
    if |s| == 1 {
      assert s == [last];
      assert DigitChar(n) == last;
    } else {
      var prefix := s[..|s| - 1];
      LeadingDigitPositive(prefix);
      var v := DigitsValue(prefix);
      assert n == v * 10 + DigitValue(last) && v >= 1;
      assert n / 10 == v && n % 10 == DigitValue(last);
      CanonicalDigitsUnique(prefix, v);
      assert DigitChar(n % 10) == last;
      assert s == prefix + [last];
    }
  }

  /** Two numbers with the same rendering are the same number. */
  lemma NatToStringInjective(a: nat, b: nat)
    requires NatToString(a) == NatToString(b)
    ensures a == b
  {
    ParseNatToString(a);
    ParseNatToString(b);
  }
}
