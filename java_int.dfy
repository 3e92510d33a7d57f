/** Java's 32-bit `int`, its wrap-around and `Integer.toString`. */
module JavaInt {

  const MIN_INT: int := -0x8000_0000
  const MAX_INT: int := 0x7fff_ffff
  const TWO_32: int := 0x1_0000_0000

  newtype int32 = x: int | -0x8000_0000 <= x < 0x8000_0000

  /** Two's-complement reduction of an unbounded integer to 32 bits. */
  function Wrap(n: int): (r: int32)
    ensures MIN_INT <= n <= MAX_INT ==> r as int == n
  {
    ((n - MIN_INT) % TWO_32 + MIN_INT) as int32
  }

  /** The update `AtomicInteger.getAndIncrement` performs: MAX_VALUE steps to MIN_VALUE. */
  function Increment(c: int32): (r: int32)
    ensures r == Wrap(c as int + 1)
  {
    if c as int == MAX_INT then MIN_INT as int32 else c + 1
  }

  /** Incrementing a wrapped value wraps the successor: the counter stays congruent to the
      number of increments modulo 2^32. */
  lemma WrapSucc(n: int)
    ensures Increment(Wrap(n)) == Wrap(n + 1)
  {
    var x := n - MIN_INT;
    var q, m := x / TWO_32, x % TWO_32;
    assert x + 1 == TWO_32 * q + (m + 1);
    assert Wrap(n) as int + 1 - MIN_INT == m + 1;
    if m + 1 < TWO_32 {
      assert (x + 1) % TWO_32 == m + 1;
    } else {
      assert x + 1 == TWO_32 * (q + 1);
      assert (x + 1) % TWO_32 == 0;
    }
  }

  /** Two integers less than 2^32 apart that wrap to the same `int` are equal. */
  lemma WrapInjective(a: int, b: int)
    requires 0 <= b - a < TWO_32
    requires Wrap(a) == Wrap(b)
    ensures a == b
  {
    var x, y := a - MIN_INT, b - MIN_INT;
    assert x == TWO_32 * (x / TWO_32) + x % TWO_32;
    assert y == TWO_32 * (y / TWO_32) + y % TWO_32;
    assert x % TWO_32 == y % TWO_32;
    var q := y / TWO_32 - x / TWO_32;
    assert y - x == TWO_32 * q;
  }

  function DigitChar(d: nat): (c: char)
    requires d < 10
    ensures '0' <= c <= '9' && c as int - '0' as int == d
  {
    (48 + d) as char
  }

  /** Decimal representation of a natural number, most significant digit first. */
  function NatToDecimal(n: nat): (s: string)
    ensures |s| >= 1 && (n >= 10 ==> |s| >= 2)
    ensures forall i :: 0 <= i < |s| ==> '0' <= s[i] <= '9'
    decreases n
  {
    if n < 10 then [DigitChar(n)] else NatToDecimal(n / 10) + [DigitChar(n % 10)]
  }

  /** `Integer.toString(n)`: a leading '-' for negative numbers, then the digits of |n|. */
  function DecimalString(n: int): (s: string)
    ensures n < 0 <==> (|s| > 0 && s[0] == '-')
  {
    if n < 0 then "-" + NatToDecimal(-n) else NatToDecimal(n)
  }

  lemma {:induction false} NatToDecimalInjective(a: nat, b: nat)
    requires NatToDecimal(a) == NatToDecimal(b)
    ensures a == b
    decreases a
  {
    var s := NatToDecimal(a);
    if a < 10 && b < 10 {
      assert DigitChar(a) == s[0] == DigitChar(b);
    } else if a >= 10 && b >= 10 {
      var sa, sb := NatToDecimal(a / 10), NatToDecimal(b / 10);
      assert s == sa + [DigitChar(a % 10)];
      assert s == sb + [DigitChar(b % 10)];
      assert |sa| == |sb|;
      assert sa == s[..|s| - 1] == sb;
      assert DigitChar(a % 10) == s[|s| - 1] == DigitChar(b % 10);
      NatToDecimalInjective(a / 10, b / 10);
    }
  }

  /** Distinct integers have distinct decimal strings. */
  lemma DecimalStringInjective(a: int, b: int)
    requires DecimalString(a) == DecimalString(b)
    ensures a == b
  {
    var s := DecimalString(a);
    if a < 0 && b < 0 {
      assert NatToDecimal(-a) == s[1..] == NatToDecimal(-b);
      NatToDecimalInjective(-a, -b);
    } else if a >= 0 && b >= 0 {
      NatToDecimalInjective(a, b);
    }
  }
}
