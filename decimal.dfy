/**
 * Decimal text of identifiers: Python's `str(int(x))`, which renders a
 * geocode as its join key, and `int(s)`, which reads a GEOID back as an
 * integer.  Only ASCII digits and an optional sign are modelled.
 */
module Decimal {
  import opened Options

  predicate IsDigit(c: char) {
    '0' <= c <= '9'
  }

  function DigitValue(c: char): nat
    requires IsDigit(c)
  {
    (c as int) - ('0' as int)
  }

  function DigitChar(d: nat): (c: char)
    requires d < 10
    ensures IsDigit(c) && DigitValue(c) == d
  {
    (('0' as int) + d) as char
  }

  predicate AllDigits(s: string) {
    forall i :: 0 <= i < |s| ==> IsDigit(s[i])
  }

  /** The value of a string of digits, leading zeros included, read most significant first. */
  function DigitsValue(s: string): nat
    requires AllDigits(s)
  {
    if s == [] then 0 else DigitsValue(s[..|s| - 1]) * 10 + DigitValue(s[|s| - 1])
  }

  /** What `str(n)` yields for a non-negative int: digits only, no leading zero unless it is "0". */
  predicate IsCanonical(s: string) {
    |s| > 0 && AllDigits(s) && (s[0] == '0' ==> |s| == 1)
  }

  /** `str(n)` for a non-negative integer n. */
  function DecimalText(n: nat): (s: string)
    ensures IsCanonical(s)
    ensures '.' !in s
  {
    if n < 10 then [DigitChar(n)] else DecimalText(n / 10) + [DigitChar(n % 10)]
  }

  /** `str(i)` for any integer i. */
  function IntText(i: int): (s: string)
    ensures |s| > 0 && (s[0] == '-' <==> i < 0)
    ensures forall k :: 0 <= k < |s| ==> IsDigit(s[k]) || s[k] == '-'
  {
    if i < 0 then "-" + DecimalText(-i) else DecimalText(i)
  }

  /**
   * `int(s)` for a string: an optional '+' or '-' followed by at least one
   * decimal digit; anything else is the ValueError that `int` raises.
   */
  function ParseInt(s: string): (r: Option<int>)
    ensures r.Some? <==> (|s| > 0 && AllDigits(s)) || (|s| > 1 && (s[0] == '+' || s[0] == '-') && AllDigits(s[1..]))
    ensures |s| > 0 && AllDigits(s) ==> r == Some(DigitsValue(s) as int)
    ensures |s| > 1 && s[0] == '+' && AllDigits(s[1..]) ==> r == Some(DigitsValue(s[1..]) as int)
    ensures |s| > 1 && s[0] == '-' && AllDigits(s[1..]) ==> r == Some(-(DigitsValue(s[1..]) as int))
    ensures r.Some? && r.value < 0 ==> s[0] == '-'
  {
    if |s| > 0 && (s[0] == '+' || s[0] == '-') then
      var body := s[1..];
      if |body| > 0 && AllDigits(body) then
        var magnitude: int := DigitsValue(body);
        Some(if s[0] == '-' then -magnitude else magnitude)
      else
        None
    else if |s| > 0 && AllDigits(s) then
      Some(DigitsValue(s))
    else
      None
  }

  /** Reading `str(n)` back gives n. */
  lemma {:induction false} DecimalTextValue(n: nat)
    ensures DigitsValue(DecimalText(n)) == n
  {
    var s := DecimalText(n);
    if n >= 10 {
      DecimalTextValue(n / 10);
      assert s[..|s| - 1] == DecimalText(n / 10);
    }
  }

  /** `int(str(n)) == n` for every non-negative n. */
  lemma ParseDecimalText(n: nat)
    ensures ParseInt(DecimalText(n)) == Some(n as int)
  {
    DecimalTextValue(n);
  }

  /** `int(str(i)) == i` for every integer i, negative ones included. */
  lemma ParseIntText(i: int)
    ensures ParseInt(IntText(i)) == Some(i)
  {
    if i < 0 {
      var s := IntText(i);
      assert s[1..] == DecimalText(-i);
      DecimalTextValue(-i);
    } else {
      DecimalTextValue(i);
    }
  }

  lemma {:induction false} LeadingDigitPositive(s: string)
    requires IsCanonical(s) && s[0] != '0'
    ensures DigitsValue(s) >= 1
  {
    if |s| > 1 {
      var p := s[..|s| - 1];
      assert p[0] == s[0];
      LeadingDigitPositive(p);
    }
  }

  /** Every canonical digit string is `str` of its own value, so `str` and `int` are mutually inverse on them. */
  lemma {:induction false} CanonicalText(s: string)
    requires IsCanonical(s)
    ensures DecimalText(DigitsValue(s)) == s
  {
    var last := s[|s| - 1];
    var p := s[..|s| - 1];
    if |s| == 1 {
      assert p == [];
      assert DigitChar(DigitValue(last)) == last;
    } else {
      assert p[0] == s[0];
      LeadingDigitPositive(p);
      CanonicalText(p);
      var a, d := DigitsValue(p), DigitValue(last);
      ShiftDigit(a, d);
      assert DigitsValue(s) == a * 10 + d;
      assert DecimalText(a * 10 + d) == DecimalText(a) + [DigitChar(d)];
      assert DigitChar(d) == last;
      assert s == p + [last];
    }
  }

  lemma ShiftDigit(a: nat, d: nat)
    requires d < 10
    ensures (a * 10 + d) / 10 == a && (a * 10 + d) % 10 == d
  {
  }

  /** Distinct ids get distinct keys, so keys never merge two geocodes. */
  lemma DecimalTextInjective(m: nat, n: nat)
    requires DecimalText(m) == DecimalText(n)
    ensures m == n
  {
    DecimalTextValue(m);
    DecimalTextValue(n);
  }
}
