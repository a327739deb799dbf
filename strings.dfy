/** Positional rendering of integers, as Python's `'%d'` and `'%X'` formats produce them. */
module Strings {

  /** The digit character of value `d` (upper-case letters above 9). */
  function DigitChar(d: nat): char
    requires d < 16
  {
    if d < 10 then ((('0' as int) + d) as char) else ((('A' as int) + d - 10) as char)
  }

  /** The value of a digit character; 0 for anything else. */
  function DigitValue(c: char): nat {
    if '0' <= c <= '9' then (c as int) - ('0' as int)
    else if 'A' <= c <= 'F' then (c as int) - ('A' as int) + 10
    else 0
  }

  /** The digits of `n` in base `base`, most significant first, without leading zeros. */
  function Digits(n: nat, base: nat): (r: string)
    requires 2 <= base <= 16
    ensures |r| >= 1
    decreases n
  {
    if n < base then [DigitChar(n)] else Digits(n / base, base) + [DigitChar(n % base)]
  }

  /** Reads a digit string back in base `base`. */
  function ParseDigits(s: string, base: nat): nat
    decreases |s|
  {
    if s == [] then 0 else ParseDigits(s[..|s| - 1], base) * base + DigitValue(s[|s| - 1])
  }

  /** `'%d' % n` for a natural number. */
  function Decimal(n: nat): string {
    Digits(n, 10)
  }

  /** `'0x%X' % n`: upper-case hexadecimal after "0x"; Python puts the sign after the prefix. */
  function Hex(n: int): string {
    if n < 0 then "0x-" + Digits(-n, 16) else "0x" + Digits(n, 16)
  }

  lemma DigitValueOfChar(d: nat)
    requires d < 16
    ensures DigitValue(DigitChar(d)) == d
  {
  }

  lemma ParseSnoc(prefix: string, c: char, base: nat)
    ensures ParseDigits(prefix + [c], base) == ParseDigits(prefix, base) * base + DigitValue(c)
  {
    assert (prefix + [c])[..|prefix|] == prefix;
  }

  /** Integer division by a base of at least 2: quotient times base plus remainder, and a smaller quotient. */
  lemma DivMod(n: nat, base: nat)
    requires 2 <= base
    ensures (n / base) * base + n % base == n
    ensures n % base < base
    ensures n > 0 ==> n / base < n
  {
  }

  /** One more digit multiplies the value read so far by the base and adds the digit. */
  lemma ParseStep(prefix: string, q: nat, r: nat, base: nat)
    requires r < 16 && ParseDigits(prefix, base) == q
    ensures ParseDigits(prefix + [DigitChar(r)], base) == q * base + r
  {
    ParseSnoc(prefix, DigitChar(r), base);
    DigitValueOfChar(r);
  }

  /** Reading the digits back gives the number: the rendering loses nothing. */
  lemma {:induction false} DigitsRoundTrip(n: nat, base: nat)
    requires 2 <= base <= 16
    ensures ParseDigits(Digits(n, base), base) == n
    decreases n
  {
    if n < base {
      assert [DigitChar(n)][..0] == [];
      DigitValueOfChar(n);
    } else {
      var q, r := n / base, n % base;
      DivMod(n, base);
      DigitsRoundTrip(q, base);
      ParseStep(Digits(q, base), q, r, base);
    }
  }

  /** Distinct numbers render as distinct strings. */
  lemma DigitsInjective(a: nat, b: nat, base: nat)
    requires 2 <= base <= 16
    requires Digits(a, base) == Digits(b, base)
    ensures a == b
  {
    DigitsRoundTrip(a, base);
    DigitsRoundTrip(b, base);
  }

  /** The hexadecimal rendering of a non-negative number reads back to that number. */
  lemma HexRoundTrip(n: nat)
    ensures Hex(n)[..2] == "0x" && ParseDigits(Hex(n)[2..], 16) == n
  {
    assert Hex(n)[2..] == Digits(n, 16);
    DigitsRoundTrip(n, 16);
  }

  /** `'%d' % n` for any integer: a minus sign before the digits of a negative number. */
  function SignedDecimal(n: int): string {
    if n < 0 then "-" + Decimal(-n) else Decimal(n)
  }

  lemma DigitIsNotMinus(d: nat)
    requires d < 16
    ensures DigitChar(d) != '-'
  {
  }

  /** No digit string contains a minus sign. */
  lemma {:induction false} DigitsHaveNoSign(n: nat, base: nat)
    requires 2 <= base <= 16
    ensures '-' !in Digits(n, base)
    decreases n
  {
    if n >= base {
      DivMod(n, base);
      DigitsHaveNoSign(n / base, base);
      DigitIsNotMinus(n % base);
    } else {
      DigitIsNotMinus(n);
    }
  }

  /** Distinct integers render as distinct signed decimal strings. */
  lemma SignedDecimalInjective(a: int, b: int)
    ensures SignedDecimal(a) == SignedDecimal(b) ==> a == b
  {
    if a < 0 && b < 0 {
      if SignedDecimal(a) == SignedDecimal(b) {
        assert Decimal(-a) == SignedDecimal(a)[1..];
        assert Decimal(-b) == SignedDecimal(b)[1..];
        DigitsInjective(-a, -b, 10);
      }
    } else if a >= 0 && b >= 0 {
      if SignedDecimal(a) == SignedDecimal(b) {
        DigitsInjective(a, b, 10);
      }
    } else if a < 0 {
      DigitsHaveNoSign(b, 10);
      assert SignedDecimal(a)[0] == '-' && SignedDecimal(b)[0] in Decimal(b);
    } else {
      DigitsHaveNoSign(a, 10);
      assert SignedDecimal(b)[0] == '-' && SignedDecimal(a)[0] in Decimal(a);
    }
  }
}
