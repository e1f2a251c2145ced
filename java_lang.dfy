/**
 * The pieces of java.lang semantics the data plane relies on: integer
 * division and remainder on `long` (which truncate toward zero, unlike
 * Dafny's Euclidean `/` and `%`) and the decimal form that `Long.toString`
 * gives, used to build the per-sensor cache keys.
 */
module JavaLang {

  /** Java's `a / b` for a positive divisor: the quotient truncated toward zero. */
  function Div(a: int, b: int): (q: int)
    requires 0 < b
    ensures 0 <= a ==> q * b <= a < (q + 1) * b
    ensures a < 0 ==> (q - 1) * b < a <= q * b
  {
    if 0 <= a then a / b else -((-a) / b)
  }

  /** Java's `a % b` for a positive divisor: the remainder takes the sign of `a`. */
  function Rem(a: int, b: int): (r: int)
    requires 0 < b
    ensures a == Div(a, b) * b + r
    ensures 0 <= a ==> 0 <= r < b
    ensures a < 0 ==> -b < r <= 0
  {
    a - Div(a, b) * b
  }

  predicate IsDigit(c: char) {
    '0' <= c <= '9'
  }

  function DigitChar(d: int): (c: char)
    requires 0 <= d < 10
    ensures IsDigit(c)
  {
    (48 + d) as char
  }

  function DigitValue(c: char): int {
    c as int - 48
  }

  /** The decimal digits of `n`, most significant first, without leading zeros. */
  function NatToString(n: nat): (s: string)
    ensures 0 < |s|
    ensures forall i :: 0 <= i < |s| ==> IsDigit(s[i])
  {
    if n < 10 then [DigitChar(n)] else NatToString(n / 10) + [DigitChar(n % 10)]
  }

  /** `Long.toString(n)`: a minus sign for negative values, then the digits of `|n|`. */
  function LongToString(n: int): string {
    if n < 0 then "-" + NatToString(-n) else NatToString(n)
  }

  /** Reads a string of decimal digits back; the inverse of `NatToString`. */
  function ParseNat(s: string): int {
    if s == [] then 0 else ParseNat(s[..|s| - 1]) * 10 + DigitValue(s[|s| - 1])
  }

  /** Reads an optionally signed decimal back; the inverse of `LongToString`. */
  function ParseLong(s: string): int {
    if 0 < |s| && s[0] == '-' then -ParseNat(s[1..]) else ParseNat(s)
  }

  lemma {:induction false} ParseNatToString(n: nat)
    ensures ParseNat(NatToString(n)) == n
  {
    if n >= 10 {
      var s := NatToString(n);
      assert s[..|s| - 1] == NatToString(n / 10);
      ParseNatToString(n / 10);
    }
  }

  /** Decimal printing loses nothing: parsing it back gives the number. */
  lemma LongToStringRoundTrip(n: int)
    ensures ParseLong(LongToString(n)) == n
  {
    if n < 0 {
      var s := LongToString(n);
      assert s[1..] == NatToString(-n);
      ParseNatToString(-n);
    } else {
      ParseNatToString(n);
      assert IsDigit(NatToString(n)[0]);
    }
  }

  /** Distinct numbers print differently. */
  lemma LongToStringInjective(a: int, b: int)
    requires LongToString(a) == LongToString(b)
    ensures a == b
  {
    LongToStringRoundTrip(a);
    LongToStringRoundTrip(b);
  }
}
