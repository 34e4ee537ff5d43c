/**
 * How JavaScript writes an integer-valued number as text (`${id}`, `String(n)`),
 * restricted to the safe integers, where the result is plain decimal notation,
 * together with the parser that reads such text back.
 */
module Decimal {
  import opened Wrappers

  /** Number.MAX_SAFE_INTEGER, 2^53 - 1. */
  const MaxSafeInteger: int := 0x1F_FFFF_FFFF_FFFF

  /** The integer-valued JavaScript numbers that are represented exactly. */
  type SafeInteger = n: int | -MaxSafeInteger <= n <= MaxSafeInteger

  predicate IsDigit(c: char) {
    '0' <= c <= '9'
  }

  predicate AllDigits(s: string) {
    forall i :: 0 <= i < |s| ==> IsDigit(s[i])
  }

  function DigitChar(d: nat): (c: char)
    requires d < 10
    ensures IsDigit(c) && c as int - '0' as int == d
  {
    ('0' as int + d) as char
  }

  function DigitValue(c: char): (d: nat)
    requires IsDigit(c)
    ensures d < 10 && DigitChar(d) == c
  {
    c as int - '0' as int
  }

  /**
   * The text `String(n)` gives for an integer: "0", or digits without a
   * leading zero, either optionally after a minus sign that is not followed by
   * a zero.
   */
  predicate Canonical(s: string) {
    || s == "0"
    || (|s| >= 1 && s[0] != '0' && AllDigits(s))
    || (|s| >= 2 && s[0] == '-' && s[1] != '0' && AllDigits(s[1..]))
  }

  /** Decimal digits of `n`, most significant first, without leading zeros. */
  function NatToString(n: nat): (s: string)
    ensures |s| >= 1 && AllDigits(s)
    ensures s[0] == '0' <==> n == 0
    ensures n == 0 ==> s == "0"
    decreases n
  {
    if n < 10 then [DigitChar(n)] else NatToString(n / 10) + [DigitChar(n % 10)]
  }

  /** The value of a string of decimal digits (the empty string reads as 0). */
  function ParseNat(s: string): nat
    requires AllDigits(s)
    decreases |s|
  {
    if |s| == 0 then 0 else ParseNat(s[..|s| - 1]) * 10 + DigitValue(s[|s| - 1])
  }

  lemma {:induction false} ParseNatToString(n: nat)
    ensures ParseNat(NatToString(n)) == n
    decreases n
  {
    if n >= 10 {
      var p := NatToString(n / 10);
      var s := p + [DigitChar(n % 10)];
      assert s[..|s| - 1] == p;
      ParseNatToString(n / 10);
    }
  }

  /** `String(n)` for an integer-valued number: an optional minus sign, then the digits. */
  function IntToString(n: int): (s: string)
    ensures |s| >= 1
    ensures s[0] == '-' <==> n < 0
    ensures Canonical(s)
  {
    if n < 0 then
      var digits := NatToString(-n);
      assert ("-" + digits)[1..] == digits;
      "-" + digits
    else NatToString(n)
  }

  /** Reads an optional minus sign followed by at least one digit. */
  function ParseInt(s: string): Option<int> {
    if |s| >= 2 && s[0] == '-' && AllDigits(s[1..]) then Some(0 - ParseNat(s[1..]) as int)
    else if |s| >= 1 && AllDigits(s) then Some(ParseNat(s))
    else None
  }

  /** ParseInt inverts IntToString. */
  lemma IntToStringRoundTrip(n: int)
    ensures ParseInt(IntToString(n)) == Some(n)
  {
    var s := IntToString(n);
    if n < 0 {
      assert s[1..] == NatToString(-n);
      assert NatToString(-n)[0] != '0';
      ParseNatToString(-n);
    } else {
      assert !IsDigit('-');
      ParseNatToString(n);
    }
  }

  /** Digits that read as zero are all zeros. */
  lemma {:induction false} ParseNatZero(s: string)
    requires AllDigits(s) && ParseNat(s) == 0
    ensures forall i :: 0 <= i < |s| ==> s[i] == '0'
    decreases |s|
  {
    if |s| > 0 {
      ParseNatZero(s[..|s| - 1]);
      assert s == s[..|s| - 1] + [s[|s| - 1]];
    }
  }

  /** Digits without a leading zero (or the single digit "0") are what NatToString writes for their value. */
  lemma {:induction false} NatToStringOfParse(s: string)
    requires |s| >= 1 && AllDigits(s) && (s[0] != '0' || s == "0")
    ensures NatToString(ParseNat(s)) == s
    decreases |s|
  {
    if |s| == 1 {
      assert s == [s[0]];
      assert s[..0] == [];
    } else {
      var p := s[..|s| - 1];
      var d := DigitValue(s[|s| - 1]);
      assert p[0] == s[0] != '0';
      NatToStringOfParse(p);
      if ParseNat(p) == 0 {
        ParseNatZero(p);
        assert false;
      }
      var n := ParseNat(s);
      assert n == ParseNat(p) * 10 + d && n / 10 == ParseNat(p) && n % 10 == d;
      assert s == p + [s[|s| - 1]];
    }
  }

  /** Every canonical text is what IntToString writes for the integer it reads as. */
  lemma CanonicalIsIntToString(s: string)
    requires Canonical(s)
    ensures ParseInt(s).Some? && IntToString(ParseInt(s).value) == s
  {
    if s[0] == '-' {
      var t := s[1..];
      assert t[0] == s[1];
      NatToStringOfParse(t);
      assert ParseNat(t) != 0;
      assert s == "-" + t;
    } else {
      assert AllDigits(s);
      NatToStringOfParse(s);
    }
  }

  /** Two canonical texts that read as the same integer are the same text. */
  lemma CanonicalUnique(a: string, b: string)
    requires Canonical(a) && Canonical(b) && ParseInt(a) == ParseInt(b)
    ensures a == b
  {
    CanonicalIsIntToString(a);
    CanonicalIsIntToString(b);
  }

  /** Different integers are written differently. */
  lemma IntToStringInjective(a: int, b: int)
    ensures IntToString(a) == IntToString(b) ==> a == b
  {
    IntToStringRoundTrip(a);
    IntToStringRoundTrip(b);
  }
}
