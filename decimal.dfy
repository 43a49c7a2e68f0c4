/**
 * Base-10 text to arbitrary-precision unsigned integer, the conversion done
 * by `BigUint::parse_bytes(text, 10)` in src/main.rs. Integers here are
 * unbounded, as a `BigUint` is.
 */
module Decimal {
  import opened Wrappers

  predicate IsDigit(c: char)
  {
    '0' <= c <= '9'
  }

  predicate AllDigits(s: string)
  {
    forall i :: 0 <= i < |s| ==> IsDigit(s[i])
  }

  /** A decimal numeral: at least one character, every one a digit. */
  predicate IsNumeral(s: string)
  {
    |s| > 0 && AllDigits(s)
  }

  /** A numeral without redundant leading zeros ("0" itself is canonical). */
  predicate IsCanonical(s: string)
  {
    IsNumeral(s) && (s[0] == '0' ==> |s| == 1)
  }

  function Pow10(n: nat): (r: nat)
    ensures r >= 1
  {
    if n == 0 then 1 else 10 * Pow10(n - 1)
  }

  function DigitValue(c: char): (d: nat)
    requires IsDigit(c)
    ensures d < 10
  {
    c as int - '0' as int
  }

  function DigitChar(d: nat): (c: char)
    requires d < 10
    ensures IsDigit(c) && DigitValue(c) == d
  {
    ('0' as int + d) as char
  }

  /** The value of a digit string read most significant digit first. */
  function DigitsValue(s: string): (n: nat)
    requires AllDigits(s)
    ensures n < Pow10(|s|)
    decreases |s|
  {
    if s == [] then 0
    else
      var v := DigitsValue(s[..|s| - 1]);
      var d := DigitValue(s[|s| - 1]);
      assert v * 10 + d < Pow10(|s| - 1) * 10 by {
        assert v + 1 <= Pow10(|s| - 1);
        assert (v + 1) * 10 <= Pow10(|s| - 1) * 10;
      }
      v * 10 + d
  }

  /**
   * `parse_bytes(text, 10)`: the value of a numeral, and `None` for
   * anything else (the empty text, a non-digit character). A numeral of
   * `k` digits can denote any value below `10^k`: there is no width bound.
   */
  function DecimalValue(s: string): (r: Option<nat>)
    ensures r.Some? <==> IsNumeral(s)
    ensures r.Some? ==> r.value < Pow10(|s|)
  {
    if IsNumeral(s) then Some(DigitsValue(s)) else None
  }

  /** The canonical decimal text of `n`, the partner of `DecimalValue`. */
  function ToDecimal(n: nat): (s: string)
    ensures IsCanonical(s)
    ensures s[0] == '0' <==> n == 0
    decreases n
  {
    if n < 10 then [DigitChar(n)]
    else ToDecimal(n / 10) + [DigitChar(n % 10)]
  }

  /** Every value is recovered from its canonical text. */
  lemma {:induction false} DecimalRoundTrip(n: nat)
    ensures DecimalValue(ToDecimal(n)) == Some(n)
    decreases n
  {
    var s := ToDecimal(n);
    if n < 10 {
      assert s[..0] == [];
    } else {
      DecimalRoundTrip(n / 10);
      assert s[..|s| - 1] == ToDecimal(n / 10);
    }
  }

  /** A numeral whose first digit is not `0` denotes a positive value. */
  lemma {:induction false} LeadingNonZeroPositive(s: string)
    requires IsNumeral(s) && s[0] != '0'
    ensures DigitsValue(s) > 0
    decreases |s|
  {
    if |s| == 1 {
      assert s[..0] == [];
    } else {
      LeadingNonZeroPositive(s[..|s| - 1]);
    }
  }

  /** Every canonical numeral is the canonical text of its value. */
  lemma {:induction false} CanonicalRoundTrip(s: string)
    requires IsCanonical(s)
    ensures ToDecimal(DigitsValue(s)) == s
    decreases |s|
  {
    if |s| == 1 {
      assert s[..0] == [];
      assert DigitChar(DigitValue(s[0])) == s[0];
    } else {
      var t, c := s[..|s| - 1], s[|s| - 1];
      assert s == t + [c];
      LeadingNonZeroPositive(t);
      CanonicalRoundTrip(t);
      var v, d := DigitsValue(t), DigitValue(c);
      assert DigitsValue(s) == v * 10 + d;
      assert (v * 10 + d) / 10 == v && (v * 10 + d) % 10 == d;
      assert DigitChar(d) == c;
    }
  }

  /**
   * Leading zeros do not change the value: "007" and "7" both denote 7,
   * because the conversion accepts any digit string, canonical or not.
   */
  lemma {:induction false} LeadingZero(s: string)
    requires AllDigits(s)
    ensures AllDigits("0" + s) && DigitsValue("0" + s) == DigitsValue(s)
    decreases |s|
  {
    var z := "0" + s;
    assert AllDigits(z) by {
      forall i | 0 <= i < |z| ensures IsDigit(z[i]) {
        if i > 0 { assert z[i] == s[i - 1]; }
      }
    }
    if s == [] {
      assert z[..0] == [];
    } else {
      var t := s[..|s| - 1];
      LeadingZero(t);
      assert z[..|z| - 1] == "0" + t;
      assert z[|z| - 1] == s[|s| - 1];
    }
  }
}
