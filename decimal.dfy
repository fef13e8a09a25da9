/**
 * Decimal text of integers: Go's `%d` verb (used to build the top-customers cache key)
 * and `strconv.Atoi` (used to read the `limit` query parameter), for 64-bit `int`.
 */
module Decimal {
  import opened Wrappers

  const MinInt64: int := -0x8000_0000_0000_0000
  const MaxInt64: int := 0x7fff_ffff_ffff_ffff

  predicate IsDigit(c: char) { '0' <= c <= '9' }

  predicate AllDigits(s: string) { forall i :: 0 <= i < |s| ==> IsDigit(s[i]) }

  function DigitChar(d: nat): (c: char)
    requires d < 10
    ensures IsDigit(c) && c as int - '0' as int == d
  {
    ('0' as int + d) as char
  }

  function DigitValue(c: char): (d: nat)
    requires IsDigit(c)
    ensures d < 10 && DigitChar(d) == c
  {
    (c as int - '0' as int) as nat
  }

  /** Shortest decimal text of a natural number (no leading zeros, "0" for zero). */
  function NatToDecimal(n: nat): (s: string)
    ensures |s| > 0 && AllDigits(s)
    ensures |s| > 1 ==> s[0] != '0'
  {
    if n < 10 then [DigitChar(n)] else NatToDecimal(n / 10) + [DigitChar(n % 10)]
  }

  /** Value of a string of decimal digits, most significant first. */
  function DigitsValue(s: string): nat
    requires AllDigits(s)
  {
    if |s| == 0 then 0 else 10 * DigitsValue(s[..|s| - 1]) + DigitValue(s[|s| - 1])
  }

  /** Go's `fmt.Sprintf("%d", n)`: an optional minus sign and the digits of |n|. */
  function FormatInt(n: int): (s: string)
    ensures |s| > 0
    ensures n < 0 <==> s[0] == '-'
  {
    if n < 0 then "-" + NatToDecimal(-n) else NatToDecimal(n)
  }

  /** A sign ('+' or '-') followed by at least one digit, or at least one digit; any value. */
  function ParseSigned(s: string): (r: Option<int>)
    ensures r.Some? <==> |s| > 0 && (if s[0] == '+' || s[0] == '-' then |s| > 1 && AllDigits(s[1..]) else AllDigits(s))
  {
    if |s| == 0 then None
    else if s[0] == '+' || s[0] == '-' then
      if |s| > 1 && AllDigits(s[1..]) then
        var v: int := DigitsValue(s[1..]);
        Some(if s[0] == '-' then -v else v)
      else None
    else if AllDigits(s) then Some(DigitsValue(s))
    else None
  }

  /** Go's `strconv.Atoi` on a 64-bit platform: a syntax error or a range error gives None. */
  function Atoi(s: string): (r: Option<int>)
    ensures r.Some? ==> MinInt64 <= r.value <= MaxInt64
    ensures r.Some? <==> ParseSigned(s).Some? && MinInt64 <= ParseSigned(s).value <= MaxInt64
    ensures r.Some? ==> r.value == ParseSigned(s).value
  {
    match ParseSigned(s)
    case Some(n) => if MinInt64 <= n <= MaxInt64 then Some(n) else None
    case None => None
  }

  lemma {:induction false} DigitsValueOfNatToDecimal(n: nat)
    ensures DigitsValue(NatToDecimal(n)) == n
  {
    var s := NatToDecimal(n);
    if n < 10 {
      assert s[..|s| - 1] == [];
    } else {
      DigitsValueOfNatToDecimal(n / 10);
      assert s[..|s| - 1] == NatToDecimal(n / 10);
    }
  }

  /** Reading back what `%d` wrote gives the number again. */
  lemma ParseSignedOfFormatInt(n: int)
    ensures ParseSigned(FormatInt(n)) == Some(n)
  {
    var s := FormatInt(n);
    if n < 0 {
      var digits := NatToDecimal(-n);
      DigitsValueOfNatToDecimal(-n);
      assert s == "-" + digits;
      assert s[1..] == digits;
      assert ParseSigned(s) == Some(-(DigitsValue(digits) as int));
    } else {
      DigitsValueOfNatToDecimal(n);
      assert IsDigit(s[0]);
      assert ParseSigned(s) == Some(DigitsValue(s));
    }
  }

  /** `strconv.Atoi` inverts `%d` on every 64-bit integer. */
  lemma AtoiOfFormatInt(n: int)
    requires MinInt64 <= n <= MaxInt64
    ensures Atoi(FormatInt(n)) == Some(n)
  {
    ParseSignedOfFormatInt(n);
  }

  /** Different integers have different `%d` texts. */
  lemma FormatIntInjective(m: int, n: int)
    requires FormatInt(m) == FormatInt(n)
    ensures m == n
  {
    ParseSignedOfFormatInt(m);
    ParseSignedOfFormatInt(n);
  }
}
