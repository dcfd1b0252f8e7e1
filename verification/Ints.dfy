/**
 The machine integers of the client, and its bitwise operations on them.

 Bytes and machine words are bounded integers; every truncation and every
 bitwise operation whose operands may share bits is written out.
 */
module Ints {

  const TWO31: int := 0x8000_0000
  const TWO32: int := 0x1_0000_0000
  const TWO63: int := 0x8000_0000_0000_0000
  const TWO64: int := 0x1_0000_0000_0000_0000

  type Byte = x: int | 0 <= x < 256
  type U32 = x: int | 0 <= x < TWO32
  type U64 = x: int | 0 <= x < TWO64
  type I32 = x: int | -TWO31 <= x < TWO31

  /** The conversion of a 64-bit word to a signed 32-bit one, modulo 2^32. */
  function TruncateI32(x: U64): I32 {
    var low := x % TWO32;
    if low < TWO31 then low else low - TWO32
  }

  /** The conversion of a signed 32-bit word to an unsigned one. */
  function AsU32(v: I32): U32 {
    if v < 0 then v + TWO32 else v
  }

  /** Widening by way of `uint32_t`. */
  function ZeroExtended(v: I32): U64 {
    AsU32(v)
  }

  /** Widening straight from `int32_t`: a negative value sets the upper half. */
  function SignExtended(v: I32): U64 {
    if v < 0 then v + TWO64 else v
  }

  /** Both ways of widening an `int32_t` are undone by the same truncation. */
  lemma WideningIsUndone(v: I32)
    ensures TruncateI32(ZeroExtended(v)) == v
    ensures TruncateI32(SignExtended(v)) == v
    ensures v >= 0 <==> SignExtended(v) == ZeroExtended(v)
  {
  }

  /** One less than a size cut to an `int32`, unless that overflows. */
  lemma LastIndexWraps(size: U64)
    requires size % TWO32 != TWO31
    ensures TruncateI32(size) - 1 >= -TWO31
    ensures ZeroExtended(TruncateI32(size) - 1) == (size - 1) % TWO32
  {
    var q, r := size / TWO32, size % TWO32;
    assert size - 1 == q * TWO32 + (r - 1);
    if r == 0 {
      assert size - 1 == (q - 1) * TWO32 + (TWO32 - 1);
      ModOf(q - 1, TWO32 - 1);
    } else {
      ModOf(q, r - 1);
    }
  }

  lemma ModOf(q: int, r: nat)
    requires r < TWO32
    ensures (q * TWO32 + r) % TWO32 == r
  {
  }

  // ---------------------------------------------------------------- bits

  function Pow2(n: nat): (p: nat)
    ensures p > 0
  {
    if n == 0 then 1 else 2 * Pow2(n - 1)
  }

  lemma {:induction false} Pow2Sum(a: nat, b: nat)
    ensures Pow2(a + b) == Pow2(a) * Pow2(b)
  {
    if a != 0 {
      Pow2Sum(a - 1, b);
      assert 2 * (Pow2(a - 1) * Pow2(b)) == (2 * Pow2(a - 1)) * Pow2(b);
    }
  }

  lemma Pow2Values()
    ensures Pow2(7) == 128 && Pow2(63) == TWO63 && Pow2(64) == TWO64 && Pow2(70) == 64 * TWO64
  {
    SmallPowers();
    hide Pow2;
    Pow2Sum(7, 7);
    Pow2Sum(14, 14);
    Pow2Sum(28, 28);
    Pow2Sum(56, 7);
    Pow2Sum(63, 1);
    Pow2Sum(63, 7);
  }

  lemma SmallPowers()
    ensures Pow2(0) == 1 && Pow2(1) == 2 && Pow2(7) == 128
  {
    assert Pow2(3) == 8;
    Pow2Sum(3, 3);
    assert Pow2(7) == 2 * Pow2(6);
  }

  predicate Bit(n: nat, k: nat) {
    if k == 0 then n % 2 == 1 else Bit(n / 2, k - 1)
  }

  function BitOr(a: nat, b: nat): nat
    decreases a
  {
    if a == 0 then b
    else (if a % 2 == 1 || b % 2 == 1 then 1 else 0) + 2 * BitOr(a / 2, b / 2)
  }

  function BitAnd(a: nat, b: nat): nat
    decreases a
  {
    if a == 0 then 0
    else (if a % 2 == 1 && b % 2 == 1 then 1 else 0) + 2 * BitAnd(a / 2, b / 2)
  }

  /** The bitwise "and" of two `int32_t` values. */
  function And32(x: I32, y: I32): I32 {
    var bits := BitAnd(AsU32(x), AsU32(y));
    BitAndBound(AsU32(x), AsU32(y));
    TruncateI32(bits)
  }

  lemma {:induction false} BitAndBound(a: nat, b: nat)
    ensures BitAnd(a, b) <= a
    decreases a
  {
    if a != 0 {
      BitAndBound(a / 2, b / 2);
    }
  }

  lemma {:induction false} NoBits(k: nat)
    ensures !Bit(0, k)
  {
    if k != 0 {
      NoBits(k - 1);
    }
  }

  /** Bit k of a bitwise "and" is set exactly when it is set on both sides. */
  lemma {:induction false} BitOfAnd(a: nat, b: nat, k: nat)
    ensures Bit(BitAnd(a, b), k) <==> Bit(a, k) && Bit(b, k)
    decreases a, k
  {
    if a == 0 {
      NoBits(k);
    } else if k != 0 {
      BitOfAnd(a / 2, b / 2, k - 1);
    }
  }

  /** On a non-negative left side `And32` is the plain "and", bit by bit, and stays below it. */
  lemma And32OfNonNegative(x: I32, y: I32, k: nat)
    requires 0 <= x
    ensures 0 <= And32(x, y) <= x
    ensures Bit(And32(x, y), k) <==> Bit(x, k) && Bit(AsU32(y), k)
  {
    And32IsBitAnd(x, y);
    BitOfAnd(x, AsU32(y), k);
  }

  lemma And32IsBitAnd(x: I32, y: I32)
    requires 0 <= x
    ensures And32(x, y) == BitAnd(x, AsU32(y)) <= x
  {
    BitAndBound(x, AsU32(y));
  }

  lemma {:induction false} BitOrBound(a: nat, b: nat, k: nat)
    requires a < Pow2(k) && b < Pow2(k)
    ensures BitOr(a, b) < Pow2(k)
  {
    if a != 0 {
      BitOrBound(a / 2, b / 2, k - 1);
    }
  }

  /** Or-ing a multiple of 2^s into a number below 2^s adds it. */
  lemma {:induction false} OrOfDisjoint(a: nat, x: nat, s: nat)
    requires a < Pow2(s)
    ensures BitOr(a, x * Pow2(s)) == a + x * Pow2(s)
  {
    if s != 0 && a != 0 {
      assert x * Pow2(s) == 2 * (x * Pow2(s - 1));
      OrOfDisjoint(a / 2, x, s - 1);
    }
  }

  lemma {:induction false} AndOfDouble(a: nat, b: nat)
    ensures BitAnd(a, 2 * b) == 2 * BitAnd(a / 2, b)
  {
    var c := 2 * b;
    assert c % 2 == 0 && c / 2 == b;
  }

  lemma {:induction false} AndOfOne(a: nat)
    ensures BitAnd(a, 1) != 0 <==> a % 2 == 1
  {
    BitAndZero(a / 2);
  }

  lemma {:induction false} BitsOfEight(n: nat)
    ensures BitAnd(n, 8) != 0 <==> Bit(n, 3)
  {
    hide BitAnd;
    AndOfDouble(n, 4);
    AndOfDouble(n / 2, 2);
    AndOfDouble(n / 2 / 2, 1);
    AndOfOne(n / 2 / 2 / 2);
    assert Bit(n, 3) == Bit(n / 2, 2) == Bit(n / 2 / 2, 1) == Bit(n / 2 / 2 / 2, 0);
  }

  lemma {:induction false} BitAndZero(n: nat)
    ensures BitAnd(n, 0) == 0
  {
    if n != 0 {
      BitAndZero(n / 2);
    }
  }
}
