/**
 * Machine words of the CHIP-8 interpreter: 8-bit and 16-bit unsigned
 * integers, and the bitwise operations the instruction set uses on bytes.
 * The bitwise operations are defined bit by bit on integers.
 */
module Bytes {

  /** An unsigned 8-bit value (Rust `u8`). */
  type byte = b: int | 0 <= b < 0x100

  /** An unsigned 16-bit value (Rust `u16`). */
  type u16 = w: int | 0 <= w < 0x1_0000

  /** `a & b` on bytes. */
  function BitAnd(a: byte, b: byte): (r: byte)
    ensures r <= a && r <= b
  {
    AndBits(a, b)
  }

  /** `a | b` on bytes. */
  function BitOr(a: byte, b: byte): (r: byte)
    ensures a <= r && b <= r
  {
    BitsBelow(a, b, 0x100);
    OrBits(a, b)
  }

  /** `a ^ b` on bytes: zero exactly when the operands are equal. */
  function BitXor(a: byte, b: byte): (r: byte)
    ensures r == 0 <==> a == b
  {
    BitsBelow(a, b, 0x100);
    XorZero(a, b);
    XorBits(a, b)
  }

  // The three operations bit by bit on non-negative integers.

  function AndBits(a: nat, b: nat): (r: nat)
    ensures r <= a && r <= b
  {
    if a == 0 || b == 0 then 0
    else 2 * AndBits(a / 2, b / 2) + (if a % 2 == 1 && b % 2 == 1 then 1 else 0)
  }

  function OrBits(a: nat, b: nat): (r: nat)
    ensures a <= r && b <= r
  {
    if a == 0 then b
    else if b == 0 then a
    else 2 * OrBits(a / 2, b / 2) + (if a % 2 == 1 || b % 2 == 1 then 1 else 0)
  }

  function XorBits(a: nat, b: nat): nat
  {
    if a == 0 then b
    else if b == 0 then a
    else 2 * XorBits(a / 2, b / 2) + (if a % 2 != b % 2 then 1 else 0)
  }

  /** Or and xor of two numbers below a power of two stay below it. */
  lemma {:induction false} BitsBelow(a: nat, b: nat, bound: nat)
    requires bound in {0x100, 0x80, 0x40, 0x20, 0x10, 8, 4, 2, 1}
    requires a < bound && b < bound
    ensures OrBits(a, b) < bound && XorBits(a, b) < bound
  {
    if a != 0 && b != 0 {
      BitsBelow(a / 2, b / 2, bound / 2);
    }
  }

  /** `a ^ a == 0`: xor-ing a register with itself clears it. */
  lemma {:induction false} XorSelf(a: nat)
    ensures XorBits(a, a) == 0
  {
    if a != 0 {
      XorSelf(a / 2);
    }
  }

  /** `a ^ b == 0` exactly when `a == b`. */
  lemma {:induction false} XorZero(a: nat, b: nat)
    ensures XorBits(a, b) == 0 <==> a == b
  {
    if a != 0 && b != 0 {
      XorZero(a / 2, b / 2);
    }
  }

  /** Xor with all ones below a power of two complements:
      `a ^ (bound - 1) == bound - 1 - a`. */
  lemma {:induction false} XorOnes(a: nat, bound: nat)
    requires bound in {0x100, 0x80, 0x40, 0x20, 0x10, 8, 4, 2, 1}
    requires a < bound
    ensures XorBits(a, bound - 1) == bound - 1 - a
  {
    if a != 0 && bound != 1 {
      XorOnes(a / 2, bound / 2);
    }
  }

  /** The blit's `cell ^= 255` is `255 - cell`. */
  lemma XorAllOnes(a: byte)
    ensures BitXor(a, 0xFF) == 0xFF - a
  {
    XorOnes(a, 0x100);
  }

  /** `a & a == a` and `a | a == a`. */
  lemma {:induction false} AndOrSelf(a: nat)
    ensures AndBits(a, a) == a && OrBits(a, a) == a
  {
    if a != 0 {
      AndOrSelf(a / 2);
    }
  }

  /** Weight of bit `dx` of a sprite row, counted from the most
      significant bit: `0b1000_0000 >> dx`. */
  function SpriteMask(dx: nat): (m: nat)
    requires dx < 8
    ensures 1 <= m <= 0x80
  {
    [0x80, 0x40, 0x20, 0x10, 0x08, 0x04, 0x02, 0x01][dx]
  }

  /** Bit `dx` of a sprite row, counted from the most significant bit. */
  predicate SpriteBit(line: byte, dx: nat)
    requires dx < 8
  {
    (line / SpriteMask(dx)) % 2 == 1
  }

  /** The blit's test `(0b1000_0000 >> dx) & line != 0` reads exactly
      bit `dx` of the row. */
  lemma SpriteTest(line: byte, dx: nat)
    requires dx < 8
    ensures BitAnd(SpriteMask(dx), line) != 0 <==> SpriteBit(line, dx)
  {
    MaskBit(SpriteMask(dx), line);
  }

  /** Masking with a power of two keeps just that bit. */
  lemma {:induction false} MaskBit(m: nat, a: nat)
    requires m in {0x80, 0x40, 0x20, 0x10, 8, 4, 2, 1}
    ensures AndBits(m, a) != 0 <==> (a / m) % 2 == 1
  {
    if m != 1 && a != 0 {
      MaskBit(m / 2, a / 2);
      HalveDivisor(a, m / 2);
    }
  }

  /** `a / (2h) == (a / 2) / h` for the mask weights. */
  lemma HalveDivisor(a: nat, h: nat)
    requires h in {0x40, 0x20, 0x10, 8, 4, 2, 1}
    ensures a / (2 * h) == (a / 2) / h
  {
    if h == 1 {
    } else if h == 2 {
    } else if h == 4 {
    } else if h == 8 {
    } else if h == 0x10 {
    } else if h == 0x20 {
    } else {
    }
  }
}
