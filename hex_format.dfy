/**
 * Java's `String.format("%x", code)` for an `int` argument: the value is read
 * as an unsigned 32-bit number (a negative int has 2^32 added to it) and is
 * written in lower-case hexadecimal digits with no leading zeros.
 */
module HexFormat {

  const TWO_32: int := 0x1_0000_0000

  /** A Java `int`. */
  type Int32 = x: int | -0x8000_0000 <= x < 0x8000_0000

  /** The unsigned 32-bit reading of a Java `int`, as `%x` prints it. */
  function Unsigned32(x: Int32): (u: nat)
    ensures u < TWO_32
    ensures (u - x) % TWO_32 == 0
    ensures 0 <= x ==> u == x
  {
    if x < 0 then x + TWO_32 else x
  }

  /** Two different Java ints never print the same unsigned value. */
  lemma Unsigned32Injective(x: Int32, y: Int32)
    requires Unsigned32(x) == Unsigned32(y)
    ensures x == y
  {
  }

  predicate IsLowerHexDigit(c: char) {
    '0' <= c <= '9' || 'a' <= c <= 'f'
  }

  predicate IsLowerHex(s: string) {
    forall i :: 0 <= i < |s| ==> IsLowerHexDigit(s[i])
  }

  /** What `%x` may print: one or more lower-case digits, no leading zero. */
  predicate IsCanonicalHex(s: string) {
    && |s| >= 1
    && IsLowerHex(s)
    && (s[0] == '0' ==> |s| == 1)
  }

  function HexDigit(d: nat): (c: char)
    requires d < 16
    ensures IsLowerHexDigit(c)
    ensures c == '0' <==> d == 0
  {
    if d < 10 then ('0' as int + d) as char else ('a' as int + (d - 10)) as char
  }

  function DigitValue(c: char): (d: nat)
    requires IsLowerHexDigit(c)
    ensures d < 16
    ensures HexDigit(d) == c
  {
    if c <= '9' then c as int - '0' as int else c as int - 'a' as int + 10
  }

  /** The digits `%x` prints for the unsigned value `n`. */
  function ToHex(n: nat): (s: string)
    ensures IsCanonicalHex(s)
    ensures s[0] == '0' <==> n == 0
    decreases n
  {
    if n < 16 then [HexDigit(n)] else ToHex(n / 16) + [HexDigit(n % 16)]
  }

  /** The value of a string of lower-case hexadecimal digits. */
  function FromHex(s: string): nat
    requires IsLowerHex(s)
  {
    if s == [] then 0 else 16 * FromHex(s[..|s| - 1]) + DigitValue(s[|s| - 1])
  }

  /** Reading back what `%x` printed gives the value that was printed. */
  lemma {:induction false} FromHexToHex(n: nat)
    ensures FromHex(ToHex(n)) == n
  {
    if n >= 16 {
      var s := ToHex(n);
      assert s[..|s| - 1] == ToHex(n / 16);
      FromHexToHex(n / 16);
    }
  }

  lemma {:induction false} FromHexLeadingDigit(s: string)
    requires IsLowerHex(s) && |s| >= 1 && s[0] != '0'
    ensures FromHex(s) > 0
  {
    if |s| > 1 {
      FromHexLeadingDigit(s[..|s| - 1]);
    }
  }

  /**
   * A canonical hex string is the one `%x` prints for its own value: the
   * printed form of a value is the only canonical string denoting it.
   */
  lemma {:induction false} ToHexFromHex(s: string)
    requires IsCanonicalHex(s)
    ensures ToHex(FromHex(s)) == s
  {
    if |s| > 1 {
      var p := s[..|s| - 1];
      var d := DigitValue(s[|s| - 1]);
      FromHexLeadingDigit(p);
      ToHexFromHex(p);
      var n := FromHex(s);
      assert n == 16 * FromHex(p) + d;
      assert n / 16 == FromHex(p) && n % 16 == d;
      assert ToHex(n) == ToHex(FromHex(p)) + [HexDigit(d)];
      assert s == p + [s[|s| - 1]];
    }
  }

  /** Different values never print the same digits. */
  lemma ToHexInjective(m: nat, n: nat)
    requires ToHex(m) == ToHex(n)
    ensures m == n
  {
    FromHexToHex(m);
    FromHexToHex(n);
  }

  /** A value below 16^k prints in at most k digits (zero prints as one). */
  lemma {:induction false} ToHexLength(n: nat, k: nat)
    requires k >= 1 && n < Pow16(k)
    ensures |ToHex(n)| <= k
  {
    if n >= 16 {
      assert k >= 2;
      var p := Pow16(k - 1);
      assert n < 16 * p;
      assert n / 16 < p;
      ToHexLength(n / 16, k - 1);
      assert ToHex(n) == ToHex(n / 16) + [HexDigit(n % 16)];
    }
  }

  function Pow16(k: nat): (p: nat)
    ensures p >= 1
  {
    if k == 0 then 1 else 16 * Pow16(k - 1)
  }

  /** An unsigned 32-bit value prints in at most eight digits. */
  lemma ToHex32Length(x: Int32)
    ensures |ToHex(Unsigned32(x))| <= 8
  {
    assert Pow16(8) == TWO_32;
    ToHexLength(Unsigned32(x), 8);
  }
}
