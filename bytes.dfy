// Fixed-width machine integers of the Go source (byte, uint16), with their
// wrap-around written out, and the bitwise operators Go applies to bytes.
module Bytes {

  type uint8 = x: int | 0 <= x < 0x100
  type uint16 = x: int | 0 <= x < 0x1_0000

  /** A 4-bit instruction field (x or y): the index of a general register. */
  type Nibble = x: int | 0 <= x < 16

  /** Go's `a + b` on two bytes: the sum modulo 2^8. */
  function AddByte(a: uint8, b: uint8): uint8 {
    (a + b) % 0x100
  }

  /** Go's `a - b` on two bytes: the difference modulo 2^8 (never negative). */
  function SubByte(a: uint8, b: uint8): uint8 {
    (a - b) % 0x100
  }

  /** Go's `a + b` on two uint16 values: the sum modulo 2^16. */
  function AddWord(a: uint16, b: uint16): uint16 {
    (a + b) % 0x1_0000
  }

  /** The three bitwise operators Go applies to bytes. */
  datatype BitOp = OrOp | AndOp | XorOp

  /** The operator on two single bits. */
  function Bit(op: BitOp, x: int, y: int): int {
    match op
    case OrOp => if x == 1 || y == 1 then 1 else 0
    case AndOp => if x == 1 && y == 1 then 1 else 0
    case XorOp => if x != y then 1 else 0
  }

  function Pow2(n: nat): (p: nat)
    ensures p >= 1
  {
    if n == 0 then 1 else 2 * Pow2(n - 1)
  }

  /** The operator applied bit by bit to the low n bits of a and b. */
  function Bits(op: BitOp, a: nat, b: nat, n: nat): (r: nat)
    ensures r < Pow2(n)
  {
    if n == 0 then 0 else Bit(op, a % 2, b % 2) + 2 * Bits(op, a / 2, b / 2, n - 1)
  }

  function OrByte(a: uint8, b: uint8): uint8 {
    Bits(OrOp, a, b, 8)
  }

  function AndByte(a: uint8, b: uint8): uint8 {
    Bits(AndOp, a, b, 8)
  }

  function XorByte(a: uint8, b: uint8): uint8 {
    Bits(XorOp, a, b, 8)
  }

  lemma Pow2Byte()
    ensures Pow2(8) == 0x100
  {
  }

  /** OR is at least each operand and AND at most each. */
  lemma OrAndBounds(a: uint8, b: uint8)
    ensures OrByte(a, b) >= a && OrByte(a, b) >= b
    ensures AndByte(a, b) <= a && AndByte(a, b) <= b
  {
    Pow2Byte();
    OrAtLeast(a, b, 8);
    OrAtLeast(b, a, 8);
    Commutes(OrOp, a, b, 8);
    AndAtMost(a, b, 8);
    AndAtMost(b, a, 8);
    Commutes(AndOp, a, b, 8);
  }

  /** XOR with the same byte twice gives back the first operand. */
  lemma XorInvolutive(a: uint8, b: uint8)
    ensures XorByte(XorByte(a, b), b) == a
  {
    Pow2Byte();
    XorTwice(a, b, 8);
  }

  /** AND and OR absorb each other. */
  lemma Absorption(a: uint8, b: uint8)
    ensures AndByte(a, OrByte(a, b)) == a
    ensures OrByte(AndByte(a, b), b) == b
  {
    Pow2Byte();
    AndOrAbsorb(a, b, 8);
    OrAndAbsorb(a, b, 8);
  }

  /** Masking with 0xFF keeps a byte, masking with 0 clears it. */
  lemma AndMask(a: uint8)
    ensures AndByte(a, 0xFF) == a && AndByte(a, 0) == 0
  {
    Pow2Byte();
    AndAllOnes(a, 8);
    AndZero(a, 8);
  }

  /** Bit 0 of a byte is its remainder modulo 2. */
  lemma LowBit(a: uint8)
    ensures AndByte(a, 1) == a % 2
  {
    AndZero(a / 2, 7);
  }

  lemma {:induction false} OrAtLeast(a: nat, b: nat, n: nat)
    requires a < Pow2(n)
    ensures Bits(OrOp, a, b, n) >= a
  {
    if n > 0 {
      OrAtLeast(a / 2, b / 2, n - 1);
    }
  }

  lemma {:induction false} AndAtMost(a: nat, b: nat, n: nat)
    ensures Bits(AndOp, a, b, n) <= a
  {
    if n > 0 {
      AndAtMost(a / 2, b / 2, n - 1);
    }
  }

  lemma {:induction false} Commutes(op: BitOp, a: nat, b: nat, n: nat)
    ensures Bits(op, a, b, n) == Bits(op, b, a, n)
  {
    if n > 0 {
      Commutes(op, a / 2, b / 2, n - 1);
    }
  }

  lemma {:induction false} XorTwice(a: nat, b: nat, n: nat)
    requires a < Pow2(n)
    ensures Bits(XorOp, Bits(XorOp, a, b, n), b, n) == a
  {
    if n > 0 {
      var c := Bits(XorOp, a, b, n);
      var rest := Bits(XorOp, a / 2, b / 2, n - 1);
      assert c % 2 == Bit(XorOp, a % 2, b % 2) && c / 2 == rest;
      XorTwice(a / 2, b / 2, n - 1);
    }
  }

  lemma {:induction false} AndOrAbsorb(a: nat, b: nat, n: nat)
    requires a < Pow2(n)
    ensures Bits(AndOp, a, Bits(OrOp, a, b, n), n) == a
  {
    if n > 0 {
      var c := Bits(OrOp, a, b, n);
      var rest := Bits(OrOp, a / 2, b / 2, n - 1);
      assert c % 2 == Bit(OrOp, a % 2, b % 2) && c / 2 == rest;
      AndOrAbsorb(a / 2, b / 2, n - 1);
    }
  }

  lemma {:induction false} OrAndAbsorb(a: nat, b: nat, n: nat)
    requires b < Pow2(n)
    ensures Bits(OrOp, Bits(AndOp, a, b, n), b, n) == b
  {
    if n > 0 {
      var c := Bits(AndOp, a, b, n);
      var rest := Bits(AndOp, a / 2, b / 2, n - 1);
      assert c % 2 == Bit(AndOp, a % 2, b % 2) && c / 2 == rest;
      OrAndAbsorb(a / 2, b / 2, n - 1);
    }
  }

  lemma {:induction false} AndAllOnes(a: nat, n: nat)
    requires a < Pow2(n)
    ensures Bits(AndOp, a, Pow2(n) - 1, n) == a
  {
    if n > 0 {
      assert (Pow2(n) - 1) % 2 == 1 && (Pow2(n) - 1) / 2 == Pow2(n - 1) - 1;
      AndAllOnes(a / 2, n - 1);
    }
  }

  lemma {:induction false} AndZero(a: nat, n: nat)
    ensures Bits(AndOp, a, 0, n) == 0
  {
    if n > 0 {
      AndZero(a / 2, n - 1);
    }
  }
}
