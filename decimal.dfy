/**
 * Decimal rendering of integers, as Python's `str` does it for an `int`
 * (used when an HTTP status code is written into an error message), and
 * the parser that reads such a rendering back.
 */
module Decimal {
  import opened Wrappers

  predicate IsDigit(c: char) {
    '0' <= c <= '9'
  }

  predicate AllDigits(s: string) {
    forall i :: 0 <= i < |s| ==> IsDigit(s[i])
  }

  function DigitValue(c: char): (d: nat)
    requires IsDigit(c)
    ensures d < 10
  {
    c as int - '0' as int
  }

  function DigitChar(d: nat): (c: char)
    requires d < 10
    ensures IsDigit(c) && DigitValue(c) == d
  {
    ('0' as int + d) as char
  }

  /** The decimal digits of `n`, most significant first, with no leading zero. */
  function NatToString(n: nat): (s: string)
    ensures |s| > 0 && AllDigits(s)
    ensures s[0] == '0' ==> n == 0 && s == "0"
    decreases n
  {
    if n < 10 then [DigitChar(n)] else NatToString(n / 10) + [DigitChar(n % 10)]
  }

  /** Python's `str(i)` for an `int`: a minus sign before the digits of a negative number. */
  function IntToString(i: int): (s: string)
    ensures |s| > 0
    ensures s[0] == '-' <==> i < 0
  {
    if i < 0 then "-" + NatToString(-i) else NatToString(i)
  }

  /** The number a string of decimal digits denotes. */
  function ParseNat(s: string): nat
    requires AllDigits(s)
    decreases |s|
  {
    if s == [] then 0 else 10 * ParseNat(s[..|s| - 1]) + DigitValue(s[|s| - 1])
  }

  /**
   * A canonical rendering of a natural number: at least one digit, and a
   * leading zero only in "0" itself.
   */
  predicate IsCanonical(s: string) {
    |s| > 0 && AllDigits(s) && (s[0] == '0' ==> s == "0")
  }

  /** Reads exactly the strings `IntToString` produces: a canonical number, optionally negated. */
  function ParseInt(s: string): Option<int> {
    if |s| > 1 && s[0] == '-' && IsCanonical(s[1..]) && s[1] != '0' then Some(0 - ParseNat(s[1..]) as int)
    else if IsCanonical(s) then Some(ParseNat(s))
    else None
  }

  lemma {:induction false} ParseNatToString(n: nat)
    ensures ParseNat(NatToString(n)) == n
    decreases n
  {
    if n >= 10 {
      var s := NatToString(n / 10);
      var t := s + [DigitChar(n % 10)];
      assert t[..|t| - 1] == s;
      ParseNatToString(n / 10);
    }
  }

  /** Rendering and parsing are inverse: the rendering of `i` denotes `i`. */
  lemma IntToStringRoundTrip(i: int)
    ensures ParseInt(IntToString(i)) == Some(i)
  {
    if i < 0 {
      var s := IntToString(i);
      assert s[1..] == NatToString(-i);
      ParseNatToString(-i);
    } else {
      ParseNatToString(i);
    }
  }

  /** A digit string denoting zero starts with '0'. */
  lemma {:induction false} ParseNatZero(s: string)
    requires |s| > 0 && AllDigits(s) && ParseNat(s) == 0
    ensures s[0] == '0'
    decreases |s|
  {
    if |s| > 1 {
      ParseNatZero(s[..|s| - 1]);
    }
  }

  lemma {:induction false} NatToStringParse(s: string)
    requires IsCanonical(s)
    ensures NatToString(ParseNat(s)) == s
    decreases |s|
  {
    var c := s[|s| - 1];
    assert DigitChar(DigitValue(c)) == c;
    if |s| > 1 {
      var t := s[..|s| - 1];
      assert t[0] == s[0] != '0';
      if ParseNat(t) == 0 {
        ParseNatZero(t);
      }
      NatToStringParse(t);
      assert s == t + [c];
    }
  }

  /** Parsing accepts only renderings: whatever it reads is printed back as the same string. */
  lemma ParseIntToString(s: string, i: int)
    requires ParseInt(s) == Some(i)
    ensures IntToString(i) == s
  {
    if |s| > 1 && s[0] == '-' && IsCanonical(s[1..]) && s[1] != '0' {
      NatToStringParse(s[1..]);
      if ParseNat(s[1..]) == 0 {
        ParseNatZero(s[1..]);
      }
      assert s == "-" + s[1..];
    } else {
      NatToStringParse(s);
    }
  }

  /** Different integers are rendered differently. */
  lemma IntToStringInjective(i: int, j: int)
    requires IntToString(i) == IntToString(j)
    ensures i == j
  {
    IntToStringRoundTrip(i);
    IntToStringRoundTrip(j);
  }
}
