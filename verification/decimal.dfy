/** Decimal integers as Kotlin reads them: `String.toIntOrNull()` in radix 10,
    the parser behind the port argument of the command line, together with
    the decimal rendering of an `Int` that it inverts. */
module Decimal {
  import opened Wrappers

  /** Bounds of Kotlin's 32-bit `Int`. */
  const IntMin: int := -0x8000_0000
  const IntMax: int := 0x7FFF_FFFF

  predicate InInt32(n: int)
  {
    IntMin <= n <= IntMax
  }

  predicate IsDigit(c: char)
  {
    '0' <= c <= '9'
  }

  predicate AllDigits(s: string)
  {
    forall i :: 0 <= i < |s| ==> IsDigit(s[i])
  }

  function DigitValue(c: char): (d: nat)
    requires IsDigit(c)
    ensures d < 10
  {
    c as int - '0' as int
  }

  function DigitChar(d: nat): (c: char)
    requires d < 10
    ensures IsDigit(c) && DigitValue(c) == d
  {
    ('0' as int + d) as char
  }

  /** The value of a string of decimal digits, most significant digit first. */
  function DigitsValue(s: string): nat
    requires AllDigits(s)
  {
    if |s| == 0 then 0 else DigitsValue(s[..|s| - 1]) * 10 + DigitValue(s[|s| - 1])
  }

  /** `toIntOrNull()`: an optional leading `-` or `+`, then one or more
      digits, whose signed value must fit in an `Int`; anything else is
      `null`.  Kotlin's implementation checks for overflow while accumulating, and so rejects exactly
      the digit strings whose value lies outside the `Int` range. */
  function ParseInt(s: string): (r: Option<int>)
    ensures r.Some? ==> InInt32(r.value)
    ensures r.Some? ==> |s| > 0 && (IsDigit(s[0]) || s[0] == '-' || s[0] == '+')
    ensures r.Some? ==> AllDigits(s[1..]) && (|s| == 1 ==> IsDigit(s[0]))
    ensures r.Some? && r.value < 0 ==> s[0] == '-'
  {
    if |s| == 0 then None
    else
      var negative := s[0] == '-';
      var start := if s[0] == '-' || s[0] == '+' then 1 else 0;
      var digits := s[start..];
      if |digits| == 0 || !AllDigits(digits) then None
      else
        var magnitude: int := DigitsValue(digits);
        var v := if negative then -magnitude else magnitude;
        if InInt32(v) then Some(v) else None
  }

  /** The decimal digits of a natural number, without leading zeros. */
  function NatToDigits(n: nat): (s: string)
    ensures |s| > 0 && AllDigits(s)
    ensures IsDigit(s[0])
    ensures n > 0 ==> s[0] != '0'
    ensures |s| > 1 ==> s[0] != '0'
    decreases n
  {
    if n < 10 then [DigitChar(n)] else NatToDigits(n / 10) + [DigitChar(n % 10)]
  }

  /** Kotlin's `Int.toString()`: a `-` sign for negative values, then the digits. */
  function IntToDecimal(n: int): (s: string)
  {
    if n < 0 then "-" + NatToDigits(-n) else NatToDigits(n)
  }

  lemma {:induction false} DigitsValueOfNatToDigits(n: nat)
    ensures DigitsValue(NatToDigits(n)) == n
    decreases n
  {
    if n >= 10 {
      var s := NatToDigits(n);
      assert s[..|s| - 1] == NatToDigits(n / 10);
      DigitsValueOfNatToDigits(n / 10);
    }
  }

  /** Every `Int` survives a trip through its decimal rendering and `toIntOrNull`. */
  lemma ParseIntOfDecimal(n: int)
    requires InInt32(n)
    ensures ParseInt(IntToDecimal(n)) == Some(n)
  {
    if n < 0 {
      DigitsValueOfNatToDigits(-n);
      assert IntToDecimal(n)[1..] == NatToDigits(-n);
    } else {
      DigitsValueOfNatToDigits(n);
      assert IntToDecimal(n)[0..] == NatToDigits(n);
    }
  }

  /** A leading `+` is accepted and does not change the value. */
  lemma ParseIntPlusSign(n: int)
    requires 0 <= n <= IntMax
    ensures ParseInt("+" + IntToDecimal(n)) == Some(n)
  {
    DigitsValueOfNatToDigits(n);
    assert ("+" + IntToDecimal(n))[1..] == NatToDigits(n);
  }

  predicate AllZeros(z: string)
  {
    forall i :: 0 <= i < |z| ==> z[i] == '0'
  }

  lemma {:induction false} ZerosValue(z: string)
    requires AllZeros(z)
    ensures AllDigits(z) && DigitsValue(z) == 0
    decreases |z|
  {
    if |z| > 0 {
      ZerosValue(z[..|z| - 1]);
    }
  }

  /** Zeros in front of a digit string do not change its value. */
  lemma {:induction false} DigitsValueLeadingZeros(z: string, d: string)
    requires AllZeros(z) && AllDigits(d)
    ensures AllDigits(z + d) && DigitsValue(z + d) == DigitsValue(d)
    decreases |d|
  {
    ZerosValue(z);
    if |d| == 0 {
      assert z + d == z;
    } else {
      assert (z + d)[..|z + d| - 1] == z + d[..|d| - 1];
      DigitsValueLeadingZeros(z, d[..|d| - 1]);
    }
  }

  /** Leading zeros, after an optional sign, are accepted and ignored: for
      example "08080" reads as 8080 and "-0" as 0. */
  lemma ParseIntLeadingZeros(z: string, n: int)
    requires AllZeros(z) && InInt32(n)
    ensures n >= 0 ==> ParseInt(z + IntToDecimal(n)) == Some(n)
    ensures n >= 0 ==> ParseInt("+" + z + IntToDecimal(n)) == Some(n)
    ensures n <= 0 ==> ParseInt("-" + z + NatToDigits(-n)) == Some(n)
  {
    if n >= 0 {
      var d := NatToDigits(n);
      DigitsValueOfNatToDigits(n);
      DigitsValueLeadingZeros(z, d);
      var s := z + d;
      if |z| > 0 {
        assert s[0] == '0';
      }
      assert s[0..] == s;
      assert ("+" + z + d)[1..] == s;
    }
    if n <= 0 {
      var d := NatToDigits(-n);
      DigitsValueOfNatToDigits(-n);
      DigitsValueLeadingZeros(z, d);
      assert ("-" + z + d)[1..] == z + d;
    }
  }

  /** Every numeral outside the `Int` range is rejected, with or without a
      sign and leading zeros: `toIntOrNull` never saturates. */
  lemma ParseIntRejectsOutOfRange(z: string, n: int)
    requires AllZeros(z) && !InInt32(n)
    ensures n > IntMax ==> ParseInt(z + IntToDecimal(n)) == None
    ensures n > IntMax ==> ParseInt("+" + z + IntToDecimal(n)) == None
    ensures n < IntMin ==> ParseInt("-" + z + NatToDigits(-n)) == None
  {
    if n > IntMax {
      var d := NatToDigits(n);
      DigitsValueOfNatToDigits(n);
      DigitsValueLeadingZeros(z, d);
      var s := z + d;
      if |z| > 0 {
        assert s[0] == '0';
      }
      assert s[0..] == s;
      assert ("+" + z + d)[1..] == s;
    } else {
      var d := NatToDigits(-n);
      DigitsValueOfNatToDigits(-n);
      DigitsValueLeadingZeros(z, d);
      assert ("-" + z + d)[1..] == z + d;
    }
  }

  /** The empty string, a lone sign and a value just past either end of the
      `Int` range are all rejected. */
  lemma ParseIntRejects()
    ensures ParseInt("") == None
    ensures ParseInt("-") == None && ParseInt("+") == None
    ensures ParseInt(IntToDecimal(IntMax + 1)) == None
    ensures ParseInt(IntToDecimal(IntMin - 1)) == None
  {
    DigitsValueOfNatToDigits(IntMax + 1);
    assert IntToDecimal(IntMax + 1)[0..] == NatToDigits(IntMax + 1);
    DigitsValueOfNatToDigits(-(IntMin - 1));
    assert IntToDecimal(IntMin - 1)[1..] == NatToDigits(-(IntMin - 1));
  }
}
