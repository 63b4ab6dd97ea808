/**
 * The small part of JavaScript's number library that the colour pages rely on:
 * `Math.round` applied to a quotient of non-negative integers,
 * `Number.prototype.toString(16)` and `parseInt(s, 16)`, together with the
 * byte range of an 8-bit colour channel and the usual Option/Result wrappers.
 */
module Numbers {

  /** An 8-bit colour channel value. */
  type Byte = x: int | 0 <= x < 256

  datatype Option<T> = None | Some(value: T)

  datatype Result<T, E> = Success(value: T) | Failure(error: E)

  function Max(a: int, b: int): int { if a >= b then a else b }

  function Min(a: int, b: int): int { if a <= b then a else b }

  function Abs(a: int): int { if a < 0 then -a else a }

  // ---------------------------------------------------------------------------
  // Math.round(sum / count)
  // ---------------------------------------------------------------------------

  /**
   * `Math.round(sum / count)` for a non-negative sum and a positive count:
   * the nearest integer to the quotient, with halves rounded upwards.
   * The postcondition says that sum / count lies in [q - 1/2, q + 1/2).
   */
  function RoundDiv(sum: nat, count: nat): (q: nat)
    requires count > 0
    ensures count * (2 * q - 1) <= 2 * sum < count * (2 * q + 1)
  {
    var n, d := 2 * sum + count, 2 * count;
    var q := n / d;
    assert d * q <= n < d * q + d;
    q
  }

  lemma MulStrictCancel(c: int, a: int, b: int)
    requires c > 0 && c * a < c * b
    ensures a < b
  {
  }

  /** A rounded quotient stays between any bounds that every summand respects. */
  lemma {:induction false} RoundDivBetween(sum: nat, count: nat, lo: int, hi: int)
    requires count > 0
    requires lo * count <= sum <= hi * count
    ensures lo <= RoundDiv(sum, count) <= hi
  {
    var q: int := RoundDiv(sum, count);
    // 2 * q - 1 < 2 * hi + 1, because count * (2q - 1) <= 2 sum <= count * 2 hi < count * (2 hi + 1)
    assert count * (2 * q - 1) < count * (2 * hi + 1) by {
      assert count * (2 * hi + 1) == 2 * (hi * count) + count;
    }
    MulStrictCancel(count, 2 * q - 1, 2 * hi + 1);
    // 2 * lo - 1 < 2 * q + 1 - 1, because count * 2 lo <= 2 sum < count * (2q + 1)
    assert count * (2 * lo) < count * (2 * q + 1) by {
      assert count * (2 * lo) == 2 * (lo * count);
    }
    MulStrictCancel(count, 2 * lo, 2 * q + 1);
  }

  /** Averaging n copies of the same value gives that value back. */
  lemma RoundDivExact(v: nat, n: nat)
    requires n > 0
    ensures RoundDiv(v * n, n) == v
  {
    RoundDivBetween(v * n, n, v, v);
  }

  // ---------------------------------------------------------------------------
  // Hexadecimal digits, toString(16) and parseInt(s, 16)
  // ---------------------------------------------------------------------------

  /** A digit `parseInt(_, 16)` accepts: either case. */
  predicate IsHexDigit(ch: char) {
    ('0' <= ch <= '9') || ('a' <= ch <= 'f') || ('A' <= ch <= 'F')
  }

  /** A digit `toString(16)` produces: lower case only. */
  predicate IsLowerHexDigit(ch: char) {
    ('0' <= ch <= '9') || ('a' <= ch <= 'f')
  }

  predicate AllHexDigits(s: string) {
    forall i :: 0 <= i < |s| ==> IsHexDigit(s[i])
  }

  /** The lower-case digit for a value below 16. */
  function HexDigit(d: nat): (ch: char)
    requires d < 16
    ensures IsLowerHexDigit(ch)
  {
    if d < 10 then ('0' as int + d) as char else ('a' as int + d - 10) as char
  }

  /** The value of one hexadecimal digit. */
  function DigitValue(ch: char): (d: nat)
    requires IsHexDigit(ch)
    ensures d < 16
    ensures IsLowerHexDigit(ch) ==> HexDigit(d) == ch
  {
    if '0' <= ch <= '9' then ch as int - '0' as int
    else if 'a' <= ch <= 'f' then ch as int - 'a' as int + 10
    else ch as int - 'A' as int + 10
  }

  lemma DigitValueOfHexDigit(d: nat)
    requires d < 16
    ensures DigitValue(HexDigit(d)) == d
  {
  }

  /** 16 to the power k. */
  function Pow16(k: nat): (p: nat)
    ensures p >= 1
  {
    if k == 0 then 1 else 16 * Pow16(k - 1)
  }

  /**
   * `parseInt(s, 16)` of a non-empty string made only of hexadecimal digits:
   * a number below 16 to the number of digits.
   */
  function ParseHex(s: string): (n: nat)
    requires |s| >= 1 && AllHexDigits(s)
    ensures n < Pow16(|s|)
    decreases |s|
  {
    if |s| == 1 then DigitValue(s[0])
    else
      var high := ParseHex(s[..|s| - 1]);
      ShiftDigitBound(high, DigitValue(s[|s| - 1]), Pow16(|s| - 1));
      high * 16 + DigitValue(s[|s| - 1])
  }

  /** Appending a digit to a number below p gives a number below 16 p. */
  lemma ShiftDigitBound(high: nat, d: nat, p: nat)
    requires high < p && d < 16
    ensures high * 16 + d < p * 16
  {
  }

  /**
   * `n.toString(16)` for a non-negative integer n: the base-16 digits of n,
   * most significant first, lower case, with no leading zero.
   */
  function ToHexString(n: nat): (s: string)
    ensures |s| >= 1
    ensures forall i :: 0 <= i < |s| ==> IsLowerHexDigit(s[i])
    ensures n < 16 <==> |s| == 1
    ensures |s| > 1 ==> s[0] != '0'
    decreases n
  {
    if n < 16 then [HexDigit(n)] else ToHexString(n / 16) + [HexDigit(n % 16)]
  }

  /** parseInt(n.toString(16), 16) == n: the two built-ins are inverse on non-negative integers. */
  lemma {:induction false} ParseToHexString(n: nat)
    ensures AllHexDigits(ToHexString(n)) && ParseHex(ToHexString(n)) == n
    decreases n
  {
    var s := ToHexString(n);
    if n < 16 {
      DigitValueOfHexDigit(n);
    } else {
      ParseToHexString(n / 16);
      assert s[..|s| - 1] == ToHexString(n / 16);
      DigitValueOfHexDigit(n % 16);
    }
  }

  /** Peeling off the last digit: the recursion of toString(16) seen from outside. */
  lemma ToHexStringStep(q: nat, d: nat)
    requires q >= 1 && d < 16
    ensures ToHexString(16 * q + d) == ToHexString(q) + [HexDigit(d)]
  {
    var n := 16 * q + d;
    assert n / 16 == q && n % 16 == d;
  }

  /** Appending a byte to a number appends its two digits to the number's toString(16). */
  lemma ToHexStringByte(q: nat, v: Byte)
    requires q >= 1
    ensures ToHexString(256 * q + v) == ToHexString(q) + HexByte(v)
  {
    var hi, lo := v / 16, v % 16;
    assert 256 * q + v == 16 * (16 * q + hi) + lo;
    ToHexStringStep(q, hi);
    ToHexStringStep(16 * q + hi, lo);
  }

  /** The two lower-case digits of a byte, high nibble first. */
  function HexByte(v: Byte): (s: string)
    ensures |s| == 2 && IsLowerHexDigit(s[0]) && IsLowerHexDigit(s[1])
  {
    [HexDigit(v / 16), HexDigit(v % 16)]
  }

  /** parseInt of the two digits of a byte gives the byte back. */
  lemma ParseHexByte(v: Byte)
    ensures AllHexDigits(HexByte(v)) && ParseHex(HexByte(v)) == v
  {
    var s := HexByte(v);
    assert s[..1] == [HexDigit(v / 16)];
    DigitValueOfHexDigit(v / 16);
    DigitValueOfHexDigit(v % 16);
  }

  /** parseInt of exactly two hexadecimal digits is a byte. */
  lemma ParseHexPairIsByte(s: string)
    requires |s| == 2 && AllHexDigits(s)
    ensures ParseHex(s) < 256
  {
    assert ParseHex(s) == DigitValue(s[0]) * 16 + DigitValue(s[1]);
  }
}
