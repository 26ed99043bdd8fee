/** Big-endian and little-endian numerals over any base, and powers of two. */
module Digits {
  import opened Arithmetic

  type byte = b: int | 0 <= b < 256

  function Power(base: nat, n: nat): (p: nat)
    ensures base > 0 ==> p > 0
    decreases n
  {
    if n == 0 then 1 else base * Power(base, n - 1)
  }

  function Pow2(n: nat): (p: nat)
    ensures p > 0
  {
    Power(2, n)
  }

  predicate InBase(digits: seq<int>, base: nat) { forall i | 0 <= i < |digits| :: 0 <= digits[i] < base }

  /** The number that big-endian digits stand for. */
  function Value(digits: seq<int>, base: nat): int
  {
    if digits == [] then 0 else Value(digits[..|digits| - 1], base) * base + digits[|digits| - 1]
  }

  lemma Shrink(v: nat, base: nat)
    requires base > 1
    ensures v / base >= 0 && 0 <= v % base < base && v == (v / base) * base + v % base
  {
    DivBounds(v, base);
    ModBounds(v, base);
    assert (v / base) * base == base * (v / base);
  }

  /** The last n big-endian digits of v. */
  function ToDigits(v: nat, base: nat, n: nat): (digits: seq<int>)
    requires base > 1
    ensures |digits| == n && InBase(digits, base)
    decreases n
  {
    Shrink(v, base);
    if n == 0 then [] else ToDigits(v / base, base, n - 1) + [v % base]
  }

  lemma {:induction false} PowerAdd(base: nat, m: nat, n: nat)
    ensures Power(base, m + n) == Power(base, m) * Power(base, n)
    decreases m
  {
    if m > 0 {
      PowerAdd(base, m - 1, n);
      Associate(base, Power(base, m - 1), Power(base, n));
    } else {
      assert 1 * Power(base, n) == Power(base, n);
    }
  }

  lemma Associate(a: int, b: int, c: int)
    ensures a * (b * c) == (a * b) * c
  {
  }

  lemma {:induction false} ValueBounds(digits: seq<int>, base: nat)
    requires InBase(digits, base)
    ensures 0 <= Value(digits, base) < Power(base, |digits|)
  {
    if digits != [] {
      var v, p := Value(digits[..|digits| - 1], base), Power(base, |digits| - 1);
      ValueBounds(digits[..|digits| - 1], base);
      MulOrder(v + 1, p, base);
      MulOrder(0, v, base);
      assert (v + 1) * base == v * base + base;
    }
  }

  lemma ValueSnoc(digits: seq<int>, d: int, base: nat)
    ensures Value(digits + [d], base) == Value(digits, base) * base + d
  {
    assert (digits + [d])[..|digits|] == digits;
  }

  lemma {:induction false} ValueAppend(a: seq<int>, b: seq<int>, base: nat)
    ensures Value(a + b, base) == Value(a, base) * Power(base, |b|) + Value(b, base)
  {
    if b == [] {
      assert a + b == a;
    } else {
      var n := |b| - 1;
      assert (a + b)[..|a + b| - 1] == a + b[..n];
      ValueAppend(a, b[..n], base);
      Distribute(Value(a, base), Power(base, n), Value(b[..n], base), base);
    }
  }

  lemma Distribute(x: int, p: int, y: int, base: int)
    ensures (x * p + y) * base == x * (base * p) + y * base
  {
    assert x * (base * p) == (x * p) * base;
  }

  /** Digits and value determine each other. */
  lemma {:induction false} DigitsOfValue(digits: seq<int>, base: nat)
    requires base > 1 && InBase(digits, base)
    ensures Value(digits, base) >= 0 && ToDigits(Value(digits, base), base, |digits|) == digits
  {
    if digits != [] {
      var n := |digits| - 1;
      var v, d := Value(digits[..n], base), digits[n];
      ValueBounds(digits[..n], base);
      DigitsOfValue(digits[..n], base);
      assert base * v == v * base;
      DivModUnique(v * base + d, base, v, d);
      MulOrder(0, v, base);
      assert digits == digits[..n] + [d];
    }
  }

  lemma {:induction false} ValueOfDigits(v: nat, base: nat, n: nat)
    requires base > 1 && v < Power(base, n)
    ensures Value(ToDigits(v, base, n), base) == v
    decreases n
  {
    if n > 0 {
      var q, rest := v / base, Power(base, n - 1);
      Shrink(v, base);
      MulOrder(rest, q, base);
      ValueOfDigits(q, base, n - 1);
      assert ToDigits(v, base, n)[..n - 1] == ToDigits(q, base, n - 1);
    }
  }

  lemma Pow2Table()
    ensures Pow2(0) == 1 && Pow2(1) == 2 && Pow2(2) == 4 && Pow2(3) == 8 && Pow2(4) == 16 && Pow2(5) == 32
    ensures Pow2(6) == 64 && Pow2(7) == 128 && Pow2(8) == 256 && Pow2(9) == 512 && Pow2(10) == 1024
    ensures Pow2(11) == 2048 && Pow2(12) == 4096
  {
    assert Pow2(3) == 8;
    assert Pow2(5) == 32;
    assert Pow2(7) == 128;
    assert Pow2(9) == 512;
    assert Pow2(11) == 2048;
  }

  /** JavaScript's conversion of an integer to a signed 32-bit one. */
  function Int32(n: int): (r: int)
    ensures -0x8000_0000 <= r < 0x8000_0000
    ensures (r - n) % 0x1_0000_0000 == 0
    ensures -0x8000_0000 <= n < 0x8000_0000 ==> r == n
  {
    (n + 0x8000_0000) % 0x1_0000_0000 - 0x8000_0000
  }

  /** Which non-negative 35-bit integers the conversion keeps modulo 2^35. */
  lemma Int32Keeps35(n: int)
    requires 0 <= n < 0x8_0000_0000
    ensures Int32(n) % 0x8_0000_0000 == n <==> n < 0x8000_0000 || n >= 0x8_0000_0000 - 0x8000_0000
  {
    var k := (n + 0x8000_0000) / 0x1_0000_0000;
    assert Int32(n) == n - k * 0x1_0000_0000;
    assert 0 <= k <= 8;
    if Int32(n) >= 0 {
      DivModUnique(Int32(n), 0x8_0000_0000, 0, Int32(n));
    } else {
      DivModUnique(Int32(n), 0x8_0000_0000, -1, Int32(n) + 0x8_0000_0000);
    }
  }
}
