/** Fixed-width unsigned integers and the bitwise operators the interpreter uses.
    Every value is an ordinary integer in range; C's wrap-around on conversion to
    `unsigned char` / `unsigned short` is written out with `Wrap8` / `Wrap16`, and
    `&`, `|`, `^` are defined bit by bit, least significant bit first. */
module Bits {

  /** `unsigned char` */
  type byte = x: int | 0 <= x < 0x100
  /** `unsigned short` */
  type word = x: int | 0 <= x < 0x1_0000

  /** Assigning an `int` to an `unsigned char`: reduction modulo 256. */
  function Wrap8(n: int): byte { n % 0x100 }

  /** Assigning an `int` to an `unsigned short`: reduction modulo 65536. */
  function Wrap16(n: int): word { n % 0x1_0000 }

  function Pow2(k: nat): (r: nat)
    ensures r >= 1
  {
    if k == 0 then 1 else 2 * Pow2(k - 1)
  }

  /** `a & b` restricted to the low `k` bits. */
  function AndBits(a: nat, b: nat, k: nat): (r: nat)
    ensures r < Pow2(k)
  {
    if k == 0 then 0
    else (if a % 2 == 1 && b % 2 == 1 then 1 else 0) + 2 * AndBits(a / 2, b / 2, k - 1)
  }

  /** `a | b` restricted to the low `k` bits. */
  function OrBits(a: nat, b: nat, k: nat): (r: nat)
    ensures r < Pow2(k)
  {
    if k == 0 then 0
    else (if a % 2 == 1 || b % 2 == 1 then 1 else 0) + 2 * OrBits(a / 2, b / 2, k - 1)
  }

  /** `a ^ b` restricted to the low `k` bits. */
  function XorBits(a: nat, b: nat, k: nat): (r: nat)
    ensures r < Pow2(k)
  {
    if k == 0 then 0
    else (if a % 2 != b % 2 then 1 else 0) + 2 * XorBits(a / 2, b / 2, k - 1)
  }

  function And8(a: byte, b: byte): byte { AndBits(a, b, 8) }
  function Or8(a: byte, b: byte): byte { OrBits(a, b, 8) }
  function Xor8(a: byte, b: byte): byte { XorBits(a, b, 8) }

  /** Masking with `b` leaves no bit outside `b`: masking again changes nothing. */
  lemma {:induction false} AndBitsMasked(a: nat, b: nat, k: nat)
    ensures AndBits(AndBits(a, b, k), b, k) == AndBits(a, b, k)
  {
    if k > 0 {
      var r := AndBits(a, b, k);
      assert r % 2 == (if a % 2 == 1 && b % 2 == 1 then 1 else 0);
      assert r / 2 == AndBits(a / 2, b / 2, k - 1);
      AndBitsMasked(a / 2, b / 2, k - 1);
    }
  }

  /** `a & b` never exceeds `a`. */
  lemma {:induction false} AndBitsAtMost(a: nat, b: nat, k: nat)
    ensures AndBits(a, b, k) <= a
  {
    if k > 0 {
      AndBitsAtMost(a / 2, b / 2, k - 1);
    }
  }

  /** `a & 0` is 0. */
  lemma {:induction false} AndBitsZero(a: nat, k: nat)
    ensures AndBits(a, 0, k) == 0
  {
    if k > 0 {
      AndBitsZero(a / 2, k - 1);
    }
  }

  /** `c & 1` is the low bit of `c`. */
  lemma AndOne(c: byte)
    ensures And8(c, 1) == c % 2
  {
    AndBitsZero(c / 2, 7);
  }

  /** `a | b` is symmetric, so `VY | VX` is `VX | VY`. */
  lemma {:induction false} OrBitsCommutes(a: nat, b: nat, k: nat)
    ensures OrBits(a, b, k) == OrBits(b, a, k)
  {
    if k > 0 {
      OrBitsCommutes(a / 2, b / 2, k - 1);
    }
  }

  lemma {:induction false} AndBitsCommutes(a: nat, b: nat, k: nat)
    ensures AndBits(a, b, k) == AndBits(b, a, k)
  {
    if k > 0 {
      AndBitsCommutes(a / 2, b / 2, k - 1);
    }
  }

  lemma {:induction false} XorBitsCommutes(a: nat, b: nat, k: nat)
    ensures XorBits(a, b, k) == XorBits(b, a, k)
  {
    if k > 0 {
      XorBitsCommutes(a / 2, b / 2, k - 1);
    }
  }

  /** XOR with the same value twice is the identity on `k`-bit values. */
  lemma {:induction false} XorBitsTwice(a: nat, b: nat, k: nat)
    requires a < Pow2(k)
    ensures XorBits(XorBits(a, b, k), b, k) == a
  {
    if k > 0 {
      var r := XorBits(a, b, k);
      assert r % 2 == (if a % 2 != b % 2 then 1 else 0);
      assert r / 2 == XorBits(a / 2, b / 2, k - 1);
      XorBitsTwice(a / 2, b / 2, k - 1);
    }
  }

  /** XOR with 0 is the identity on `k`-bit values. */
  lemma {:induction false} XorBitsZero(a: nat, k: nat)
    requires a < Pow2(k)
    ensures XorBits(a, 0, k) == a
  {
    if k > 0 {
      XorBitsZero(a / 2, k - 1);
    }
  }

  /** `c ^ 1` flips bit 0 of a byte and nothing else. */
  lemma XorOne(c: byte)
    ensures Xor8(c, 1) == if c % 2 == 0 then c + 1 else c - 1
  {
    XorBitsZero(c / 2, 7);
  }

  /** `c ^ 1 == 1` exactly when `c == 0`. */
  lemma XorOneIsOne(c: byte)
    ensures Xor8(c, 1) == 1 <==> c == 0
  {
    XorOne(c);
  }

  /** `c ^ 1 ^ 1 == c` for a byte. */
  lemma XorOneTwice(c: byte)
    ensures Xor8(Xor8(c, 1), 1) == c
  {
    XorBitsTwice(c, 1, 8);
  }
}
