/**
 * Base-10 integer text as Go's strconv package writes and reads it:
 * `FormatInt(v, 10)`, `FormatUint(v, 10)` and `ParseInt(s, 10, 64)`.
 */
module Decimal {
  import opened Wrappers

  const Int64Min: int := -0x8000_0000_0000_0000
  const Int64Max: int := 0x7fff_ffff_ffff_ffff
  const Uint64Max: int := 0xffff_ffff_ffff_ffff

  predicate IsDigit(c: char) {
    '0' <= c <= '9'
  }

  predicate AllDigits(s: string) {
    forall i :: 0 <= i < |s| ==> IsDigit(s[i])
  }

  function DigitChar(d: nat): (c: char)
    requires d < 10
    ensures IsDigit(c)
  {
    "0123456789"[d]
  }

  function DigitValue(c: char): (d: nat)
    requires IsDigit(c)
    ensures d < 10
  {
    (c as int - '0' as int) as nat
  }

  lemma DigitRoundTrip(d: nat)
    requires d < 10
    ensures DigitValue(DigitChar(d)) == d
  {
  }

  /** The shortest decimal digits of `n`: "0" for zero, otherwise no leading zero. */
  function FormatNat(n: nat): (s: string)
    ensures |s| > 0 && AllDigits(s)
    ensures |s| > 1 ==> s[0] != '0'
    decreases n
  {
    if n < 10 then [DigitChar(n)] else FormatNat(n / 10) + [DigitChar(n % 10)]
  }

  /** `strconv.FormatUint(v, 10)`: the decimal digits of `n`. */
  function FormatUint(n: nat): (s: string)
    ensures |s| > 0 && AllDigits(s) && DigitsValue(s) == n
  {
    DigitsOfFormat(n);
    FormatNat(n)
  }

  /** `strconv.FormatInt(v, 10)`: a minus sign for negative values, no sign otherwise. */
  function FormatInt(n: int): (s: string)
    ensures n >= 0 ==> |s| > 0 && AllDigits(s) && DigitsValue(s) == n
    ensures n < 0 ==> |s| > 1 && s[0] == '-' && AllDigits(s[1..]) && DigitsValue(s[1..]) == -n
  {
    DigitsOfFormat(if n < 0 then -n else n);
    if n < 0 then "-" + FormatNat(-n) else FormatNat(n)
  }

  /** The value of a string of decimal digits, read most significant digit first. */
  function DigitsValue(s: string): nat
    requires AllDigits(s)
  {
    if |s| == 0 then 0 else DigitsValue(s[..|s| - 1]) * 10 + DigitValue(s[|s| - 1])
  }

  /**
   * `strconv.ParseInt(s, 10, 64)`: an optional `+` or `-`, then one or more decimal digits
   * (leading zeros allowed), with a value in the signed 64-bit range. Anything else is an
   * error; the error text is not modelled, only its presence.
   */
  function ParseInt64(s: string): (r: Option<int>)
    ensures r.Some? ==> Int64Min <= r.value <= Int64Max
  {
    if |s| == 0 then None
    else
      var neg := s[0] == '-';
      var digits := if s[0] == '-' || s[0] == '+' then s[1..] else s;
      if |digits| == 0 || !AllDigits(digits) then None
      else
        var mag: int := DigitsValue(digits);
        var v := if neg then -mag else mag;
        if Int64Min <= v <= Int64Max then Some(v) else None
  }

  lemma {:induction false} DigitsOfFormat(n: nat)
    ensures DigitsValue(FormatNat(n)) == n
    decreases n
  {
    if n < 10 {
      DigitRoundTrip(n);
    } else {
      DigitsOfFormat(n / 10);
      var s := FormatNat(n);
      assert s[..|s| - 1] == FormatNat(n / 10);
      DigitRoundTrip(n % 10);
    }
  }

  /** Reading back what `FormatInt` wrote gives the value again, for every 64-bit value. */
  lemma ParseFormatInt(n: int)
    requires Int64Min <= n <= Int64Max
    ensures ParseInt64(FormatInt(n)) == Some(n)
  {
    if n < 0 {
      DigitsOfFormat(-n);
      ParseNegative(FormatNat(-n), -n);
    } else {
      DigitsOfFormat(n);
      ParseUnsigned(FormatNat(n), n);
    }
  }

  /** Digits with no sign read as their value. */
  lemma ParseUnsigned(d: string, m: nat)
    requires |d| > 0 && AllDigits(d) && DigitsValue(d) == m && m <= Int64Max
    ensures ParseInt64(d) == Some(m)
  {
    assert IsDigit(d[0]);
  }

  /** A minus sign and digits read as the negated value. */
  lemma ParseNegative(d: string, m: int)
    requires |d| > 0 && AllDigits(d) && DigitsValue(d) == m && 0 <= m <= -Int64Min
    ensures ParseInt64("-" + d) == Some(-m)
  {
    var s := "-" + d;
    assert s[0] == '-' && s[1..] == d;
  }

  /** `FormatInt` is injective: different values never print the same text. */
  lemma FormatIntInjective(a: int, b: int)
    requires Int64Min <= a <= Int64Max && Int64Min <= b <= Int64Max
    requires FormatInt(a) == FormatInt(b)
    ensures a == b
  {
    ParseFormatInt(a);
    ParseFormatInt(b);
  }
}
