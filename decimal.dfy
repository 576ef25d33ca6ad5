/**
 * Decimal rendering of integers, as an account statement prints the account
 * number and the balance, together with the parser that inverts it.
 */
module Decimal {

  datatype Option<T> = None | Some(value: T)

  predicate IsDigit(c: char) {
    '0' <= c <= '9'
  }

  predicate AllDigits(s: string) {
    forall i :: 0 <= i < |s| ==> IsDigit(s[i])
  }

  /** The character of a single decimal digit. */
  function DigitChar(d: nat): (c: char)
    requires d < 10
    ensures IsDigit(c)
    ensures c as int - '0' as int == d
  {
    (d + '0' as int) as char
  }

  /** The value of a single decimal digit character. */
  function DigitValue(c: char): (d: nat)
    requires IsDigit(c)
    ensures d < 10
    ensures DigitChar(d) == c
  {
    c as int - '0' as int
  }

  /** A run of at least one digit with no leading zero: the form a natural number is printed in. */
  predicate Canonical(s: string) {
    |s| >= 1 && AllDigits(s) && (|s| >= 2 ==> s[0] != '0')
  }

  /**
   * The shortest decimal text of a natural number: at least one digit, only
   * digits, zero as "0", and no leading '0' otherwise.
   */
  function NatToString(n: nat): (s: string)
    ensures Canonical(s)
    ensures s[0] == '0' <==> n == 0
    ensures n == 0 ==> s == "0"
  {
    if n < 10 then [DigitChar(n)] else NatToString(n / 10) + [DigitChar(n % 10)]
  }

  /**
   * Decimal text of an integer: the digits of its magnitude, with no leading
   * zero, and a '-' sign before them when the integer is negative.
   */
  function IntToString(n: int): (s: string)
    ensures |s| >= 1
    ensures s[0] == '-' <==> n < 0
    ensures forall i :: 0 <= i < |s| ==> IsDigit(s[i]) || (i == 0 && s[i] == '-')
    ensures n == 0 ==> s == "0"
    ensures n > 0 ==> |s| >= 1 && s[0] != '0'
    ensures n < 0 ==> |s| >= 2 && s[1] != '0'
  {
    if n < 0 then "-" + NatToString(-n) else NatToString(n)
  }

  /** The number a run of digits denotes; the empty run denotes 0. */
  function DigitsValue(s: string): (n: nat)
    requires AllDigits(s)
  {
    if s == [] then 0 else DigitsValue(s[..|s| - 1]) * 10 + DigitValue(s[|s| - 1])
  }

  /**
   * Reads the text IntToString prints: a canonical run of digits, optionally
   * after a '-' sign that must stand before a non-zero magnitude. Anything
   * else, leading zeros and "-0" included, is None.
   */
  function ParseInt(s: string): Option<int>
  {
    if Canonical(s) then Some(DigitsValue(s))
    else if |s| >= 2 && s[0] == '-' && Canonical(s[1..]) && s[1] != '0' then Some(0 - DigitsValue(s[1..]) as int)
    else None
  }

  lemma {:induction false} NatToStringValue(n: nat)
    ensures DigitsValue(NatToString(n)) == n
  {
    var s := NatToString(n);
    if n < 10 {
      assert s[..|s| - 1] == [];
    } else {
      NatToStringValue(n / 10);
      assert s[..|s| - 1] == NatToString(n / 10);
    }
  }

  /** Every canonical run of digits is the text NatToString prints for its value. */
  lemma {:induction false} CanonicalValue(s: string)
    requires Canonical(s)
    ensures NatToString(DigitsValue(s)) == s
  {
    var d := DigitValue(s[|s| - 1]);
    if |s| == 1 {
      assert s[..|s| - 1] == [];
      assert s == [DigitChar(d)];
    } else {
      var p := s[..|s| - 1];
      assert p[0] == s[0];
      CanonicalValue(p);
      var v := DigitsValue(p);
      assert v != 0;
      assert DigitsValue(s) == v * 10 + d;
      assert (v * 10 + d) / 10 == v && (v * 10 + d) % 10 == d;
      assert s == p + [DigitChar(d)];
    }
  }

  /** Parsing the rendered text of any integer gives the integer back. */
  lemma {:induction false} IntToStringRoundTrip(n: int)
    ensures ParseInt(IntToString(n)) == Some(n)
  {
    if n < 0 {
      var s := IntToString(n);
      assert s[1..] == NatToString(-n);
      NatToStringValue(-n);
    } else {
      NatToStringValue(n);
    }
  }

  /** Whatever ParseInt accepts is exactly the text IntToString prints for the result. */
  lemma {:induction false} ParseIntSound(s: string)
    requires ParseInt(s).Some?
    ensures IntToString(ParseInt(s).value) == s
  {
    if Canonical(s) {
      CanonicalValue(s);
    } else {
      var m := s[1..];
      CanonicalValue(m);
      assert DigitsValue(m) != 0;
      assert s == "-" + m;
    }
  }

  /** Distinct integers have distinct decimal texts. */
  lemma {:induction false} IntToStringInjective(m: int, n: int)
    ensures IntToString(m) == IntToString(n) ==> m == n
  {
    IntToStringRoundTrip(m);
    IntToStringRoundTrip(n);
  }
}
