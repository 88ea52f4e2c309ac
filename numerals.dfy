/**
 * Digit strings of non-negative integers, as Python's `str(i)`, `'%x' % i`,
 * `'%X' % i` and `'%o' % i` write them, with the inverse reading that shows
 * two different numbers never share a digit string.
 */
module Numerals {

  type Base = b: nat | 2 <= b <= 16 witness 10

  function DigitChar(d: nat, upper: bool): (c: char)
    requires d < 16
  {
    if d < 10 then ('0' as int + d) as char
    else if upper then ('A' as int + d - 10) as char
    else ('a' as int + d - 10) as char
  }

  /** The value of one digit character, the inverse of DigitChar. */
  function DigitValue(c: char): (d: nat)
  {
    if '0' <= c <= '9' then c as int - '0' as int
    else if 'a' <= c <= 'f' then c as int - 'a' as int + 10
    else if 'A' <= c <= 'F' then c as int - 'A' as int + 10
    else 0
  }

  /** Most significant digit first, no leading zeros, "0" for zero. */
  function Digits(n: nat, base: Base, upper: bool): (s: string)
    ensures |s| >= 1 && '-' !in s && '/' !in s
    decreases n
  {
    if n < base then [DigitChar(n, upper)]
    else Digits(n / base, base, upper) + [DigitChar(n % base, upper)]
  }

  /** Reads a digit string back (most significant digit first). */
  function ValueOf(s: string, base: Base): (n: nat)
    decreases |s|
  {
    if s == [] then 0
    else ValueOf(s[..|s| - 1], base) * base + DigitValue(s[|s| - 1])
  }

  lemma DigitValueOfChar(d: nat, upper: bool)
    requires d < 16
    ensures DigitValue(DigitChar(d, upper)) == d
  {
  }

  lemma DivMod(n: nat, base: Base)
    ensures n == (n / base) * base + n % base
  {
  }

  lemma ValueOfAppend(p: string, c: char, base: Base)
    ensures ValueOf(p + [c], base) == ValueOf(p, base) * base + DigitValue(c)
  {
    assert (p + [c])[..|p|] == p;
  }

  lemma DigitsStep(n: nat, base: Base, upper: bool)
    requires n >= base
    requires ValueOf(Digits(n / base, base, upper), base) == n / base
    ensures ValueOf(Digits(n, base, upper), base) == n
  {
    var q, d := n / base, n % base;
    DigitValueOfChar(d, upper);
    ValueOfAppend(Digits(q, base, upper), DigitChar(d, upper), base);
    DivMod(n, base);
  }

  lemma {:induction false} DigitsRoundTrip(n: nat, base: Base, upper: bool)
    ensures ValueOf(Digits(n, base, upper), base) == n
    decreases n
  {
    if n < base {
      DigitValueOfChar(n, upper);
      ValueOfAppend([], DigitChar(n, upper), base);
    } else {
      DigitsRoundTrip(n / base, base, upper);
      DigitsStep(n, base, upper);
    }
  }

  /** Different numbers have different digit strings. */
  lemma DigitsInjective(m: nat, n: nat, base: Base, upper: bool)
    requires m != n
    ensures Digits(m, base, upper) != Digits(n, base, upper)
  {
    DigitsRoundTrip(m, base, upper);
    DigitsRoundTrip(n, base, upper);
  }

  lemma DigitCharNotZero(d: nat, upper: bool)
    requires 1 <= d < 16
    ensures DigitChar(d, upper) != '0'
  {
  }

  /** Only the digit string of zero starts with '0'. */
  lemma {:induction false} DigitsNoLeadingZero(n: nat, base: Base, upper: bool)
    ensures n >= 1 ==> Digits(n, base, upper)[0] != '0'
    ensures |Digits(n, base, upper)| >= 2 ==> Digits(n, base, upper)[0] != '0'
    decreases n
  {
    if n < base {
      if n >= 1 {
        DigitCharNotZero(n, upper);
      }
    } else {
      var q := n / base;
      assert q >= 1;
      DigitsNoLeadingZero(q, base, upper);
      assert Digits(n, base, upper) == Digits(q, base, upper) + [DigitChar(n % base, upper)];
    }
  }

  /** Python's `str(i)` for any integer. */
  function IntText(i: int): (s: string)
    ensures |s| >= 1
    ensures (s[0] == '-') <==> i < 0
    ensures '/' !in s
  {
    if i < 0 then "-" + Digits(-i, 10, false) else Digits(i, 10, false)
  }

  /** `str` is injective on integers: the text gives the number back. */
  lemma IntTextInjective(i: int, j: int)
    requires IntText(i) == IntText(j)
    ensures i == j
  {
    if i < 0 && j < 0 {
      assert IntText(i)[1..] == Digits(-i, 10, false);
      assert IntText(j)[1..] == Digits(-j, 10, false);
      if i != j { DigitsInjective(-i, -j, 10, false); }
    } else if i >= 0 && j >= 0 {
      if i != j { DigitsInjective(i, j, 10, false); }
    }
  }
}
