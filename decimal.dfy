/**
 * Decimal renderings of integers: Python's `str(int)`, which the prediction
 * records use for their interval text, and the fixed-width zero-padded fields
 * (`%Y`, `%m`, `%d`) of ISO 8601 calendar dates.
 */
module Decimal {

  predicate IsDigit(c: char) {
    '0' <= c <= '9'
  }

  predicate AllDigits(s: string) {
    forall i :: 0 <= i < |s| ==> IsDigit(s[i])
  }

  function DigitValue(c: char): int {
    c as int - '0' as int
  }

  function DigitChar(n: int): (c: char)
    requires 0 <= n <= 9
    ensures IsDigit(c) && DigitValue(c) == n
  {
    ('0' as int + n) as char
  }

  /** The number a string of decimal digits denotes (most significant digit first). */
  function DigitsValue(s: string): (n: nat)
    requires AllDigits(s)
  {
    if |s| == 0 then 0 else DigitsValue(s[..|s| - 1]) * 10 + DigitValue(s[|s| - 1])
  }

  /** Python's `str(n)` for a non-negative integer: no sign, no leading zeros. */
  function NatToString(n: nat): (s: string)
    ensures 1 <= |s| && AllDigits(s)
    ensures n < 10 <==> |s| == 1
    decreases n
  {
    if n < 10 then [DigitChar(n)] else NatToString(n / 10) + [DigitChar(n % 10)]
  }

  /** Python's `str(i)` for any integer: a minus sign before the digits of a negative one. */
  function IntToString(i: int): (s: string)
    ensures 1 <= |s|
    ensures i >= 0 ==> AllDigits(s)
    ensures i < 0 ==> s[0] == '-' && s[1..] == NatToString(-i)
  {
    if i < 0 then "-" + NatToString(-i) else NatToString(i)
  }

  function Pad2(n: int): (s: string)
    requires 0 <= n < 100
    ensures |s| == 2 && AllDigits(s)
  {
    [DigitChar(n / 10), DigitChar(n % 10)]
  }

  function Pad4(n: int): (s: string)
    requires 0 <= n < 10000
    ensures |s| == 4 && AllDigits(s)
  {
    [DigitChar(n / 1000), DigitChar(n / 100 % 10), DigitChar(n / 10 % 10), DigitChar(n % 10)]
  }

  /** Reading back what `NatToString` wrote gives the number again. */
  lemma {:induction false} NatToStringRoundTrip(n: nat)
    ensures DigitsValue(NatToString(n)) == n
    decreases n
  {
    var s := NatToString(n);
    if n >= 10 {
      NatToStringRoundTrip(n / 10);
      assert s[..|s| - 1] == NatToString(n / 10);
    }
  }

  /** The value of a two-digit string, spelled out. */
  lemma DigitsValue2(s: string)
    requires |s| == 2 && AllDigits(s)
    ensures DigitsValue(s) == 10 * DigitValue(s[0]) + DigitValue(s[1])
  {
    var p1 := s[..1];
    assert s[..|s| - 1] == p1;
    assert p1[..|p1| - 1] == [];
    assert p1[0] == s[0];
    assert DigitsValue(p1) == DigitValue(s[0]);
  }

  /** The value of a four-digit string, spelled out. */
  lemma DigitsValue4(s: string)
    requires |s| == 4 && AllDigits(s)
    ensures DigitsValue(s) == 1000 * DigitValue(s[0]) + 100 * DigitValue(s[1]) + 10 * DigitValue(s[2]) + DigitValue(s[3])
  {
    var p3, p2, p1 := s[..3], s[..2], s[..1];
    assert s[..|s| - 1] == p3;
    assert p3[..|p3| - 1] == p2;
    assert p2[..|p2| - 1] == p1;
    assert p1[..|p1| - 1] == [];
    assert p3[2] == s[2] && p2[1] == s[1] && p1[0] == s[0];
    assert DigitsValue(p1) == DigitValue(s[0]);
    assert DigitsValue(p2) == 10 * DigitValue(s[0]) + DigitValue(s[1]);
  }

  /** Reading a two-digit field back gives the number `Pad2` wrote. */
  lemma Pad2RoundTrip(n: int)
    requires 0 <= n < 100
    ensures DigitsValue(Pad2(n)) == n
  {
    DigitsValue2(Pad2(n));
  }

  /** Writing back the number a two-digit field denotes gives the field again. */
  lemma Pad2OfDigits(s: string)
    requires |s| == 2 && AllDigits(s)
    ensures DigitsValue(s) < 100
    ensures Pad2(DigitsValue(s)) == s
  {
    DigitsValue2(s);
    var t := Pad2(DigitsValue(s));
    assert t[0] == s[0] && t[1] == s[1];
  }

  /** Reading a four-digit field back gives the number `Pad4` wrote. */
  lemma Pad4RoundTrip(n: int)
    requires 0 <= n < 10000
    ensures DigitsValue(Pad4(n)) == n
  {
    var q1, r0 := n / 10, n % 10;
    var q2, r1 := q1 / 10, q1 % 10;
    var q3, r2 := q2 / 10, q2 % 10;
    DivideBy100(n, q2, 10 * r1 + r0);
    DivideBy1000(n, q3, 100 * r2 + 10 * r1 + r0);
    DigitsValue4(Pad4(n));
  }

  /** Writing back the number a four-digit field denotes gives the field again. */
  lemma Pad4OfDigits(s: string)
    requires |s| == 4 && AllDigits(s)
    ensures DigitsValue(s) < 10000
    ensures Pad4(DigitsValue(s)) == s
  {
    DigitsValue4(s);
    var a, b, c, d := DigitValue(s[0]), DigitValue(s[1]), DigitValue(s[2]), DigitValue(s[3]);
    var n := 1000 * a + 100 * b + 10 * c + d;
    DivideBy1000(n, a, 100 * b + 10 * c + d);
    DivideBy100(n, 10 * a + b, 10 * c + d);
    DivideBy10(10 * a + b, a, b);
    DivideBy10(n, 100 * a + 10 * b + c, d);
    DivideBy10(100 * a + 10 * b + c, 10 * a + b, c);
    var t := Pad4(n);
    assert t[0] == s[0] && t[1] == s[1] && t[2] == s[2] && t[3] == s[3];
  }

  lemma DivideBy10(n: int, q: int, r: int)
    requires n == 10 * q + r && 0 <= r < 10
    ensures n / 10 == q && n % 10 == r
  {
  }

  lemma DivideBy100(n: int, q: int, r: int)
    requires n == 100 * q + r && 0 <= r < 100
    ensures n / 100 == q && n % 100 == r
  {
  }

  lemma DivideBy1000(n: int, q: int, r: int)
    requires n == 1000 * q + r && 0 <= r < 1000
    ensures n / 1000 == q && n % 1000 == r
  {
  }
}
