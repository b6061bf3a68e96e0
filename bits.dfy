/** Python's integer bit operations (`<<`, `>>`, `&`) on non-negative integers, and `get_bit`. */
module Bits {

  function Pow2(k: nat): (r: nat)
    ensures r >= 1
  {
    if k == 0 then 1 else 2 * Pow2(k - 1)
  }

  /** `a << k` */
  function ShiftLeft(a: int, k: nat): int
  {
    a * Pow2(k)
  }

  /** `a >> k` on a non-negative integer: floor division by 2^k. */
  function ShiftRight(a: nat, k: nat): nat
  {
    a / Pow2(k)
  }

  /** `a & b` on non-negative integers, computed bit by bit from the least significant bit. */
  function And(a: nat, b: nat): (r: nat)
    ensures r <= a && r <= b
  {
    if a == 0 || b == 0 then 0
    else 2 * And(a / 2, b / 2) + (if a % 2 == 1 && b % 2 == 1 then 1 else 0)
  }

  /** Quotient and remainder are determined by the defining equation. */
  lemma DivModUnique(x: int, p: int, q: int, s: int)
    requires p > 0 && x == p * q + s && 0 <= s < p
    ensures x / p == q && x % p == s
  {
    var q', s' := x / p, x % p;
    assert x == p * q' + s';
    if q' > q {
      assert p * q' >= p * (q + 1) by { MulMonotone(p, q + 1, q'); }
      assert false;
    } else if q' < q {
      assert p * q >= p * (q' + 1) by { MulMonotone(p, q' + 1, q); }
      assert false;
    }
  }

  lemma MulMonotone(p: nat, a: int, b: int)
    requires a <= b
    ensures p * a <= p * b
  {
    assert p * b - p * a == p * (b - a);
  }

  /** Halving first and then dividing by p is dividing by 2p; the remainders agree bit-wise. */
  lemma DivHalf(b: nat, p: nat)
    requires p > 0
    ensures (b / 2) / p == b / (2 * p)
    ensures b % (2 * p) == 2 * ((b / 2) % p) + b % 2
  {
    var q, r := b / (2 * p), b % (2 * p);
    assert b == (2 * p) * q + r;
    assert b / 2 == p * q + r / 2 by {
      DivModUnique(b, 2, p * q + r / 2, r % 2);
    }
    DivModUnique(b / 2, p, q, r / 2);
    DivModUnique(b, 2, b / 2, r % 2);
  }

  /** `a & (2^k - 1)` keeps the k low bits. */
  lemma {:induction false} AndLowMask(a: nat, k: nat)
    ensures And(a, Pow2(k) - 1) == a % Pow2(k)
  {
    if k == 0 {
    } else if a == 0 {
    } else {
      var m := Pow2(k) - 1;
      assert m / 2 == Pow2(k - 1) - 1 && m % 2 == 1;
      AndLowMask(a / 2, k - 1);
      DivHalf(a, Pow2(k - 1));
    }
  }

  /** `a & 2^i` is non-zero exactly when bit i of a is set. */
  lemma {:induction false} AndPow2(a: nat, i: nat)
    ensures And(a, Pow2(i)) > 0 <==> (a / Pow2(i)) % 2 == 1
  {
    if a == 0 {
    } else if i == 0 {
    } else {
      assert Pow2(i) / 2 == Pow2(i - 1) && Pow2(i) % 2 == 0;
      AndPow2(a / 2, i - 1);
      DivHalf(a, Pow2(i - 1));
    }
  }

  /** get_bit(byte, i): whether bit i of byte is set. The decoder computes it as the mask test
      `byte & (1 << i) > 0`, which GetBitIsMaskTest shows to be the same thing. */
  function GetBit(b: nat, i: nat): bool
  {
    (b / Pow2(i)) % 2 == 1
  }

  /** The mask test of the decoder's get_bit holds exactly when bit i is set. */
  lemma GetBitIsMaskTest(b: nat, i: nat)
    ensures GetBit(b, i) <==> And(b, ShiftLeft(1, i)) > 0
  {
    AndPow2(b, i);
  }

  /** The w-bit field of b that starts at bit s. The decoder writes it `(b >> s) & (2^w - 1)`
      (`& 0x07`, `& 0x03`, `& 0x7F`), which BitFieldIsMask shows to be the same thing. */
  function BitField(b: nat, s: nat, w: nat): (r: nat)
    ensures r < Pow2(w)
  {
    (b / Pow2(s)) % Pow2(w)
  }

  /** Shifting right and masking with 2^w - 1 extracts the field. */
  lemma BitFieldIsMask(b: nat, s: nat, w: nat)
    ensures BitField(b, s, w) == And(ShiftRight(b, s), Pow2(w) - 1)
  {
    AndLowMask(ShiftRight(b, s), w);
  }

  /** Of a byte, bit 6 is the parity of b / 64 and bit 7 is set exactly when b >= 128. */
  lemma TopBitsOfByte(b: nat)
    requires b < 256
    ensures GetBit(b, 6) == ((b / 64) % 2 == 1)
    ensures GetBit(b, 7) == (b >= 128)
  {
    assert Pow2(6) == 64;
    assert Pow2(7) == 128;
    assert b / 128 == (if b >= 128 then 1 else 0);
  }

  /** A two-bit field, written `(b >> s) & 0x03` by the decoder, lies in 0..3. */
  lemma TwoBitField(b: nat, s: nat)
    ensures BitField(b, s, 2) == And(ShiftRight(b, s), 3) && BitField(b, s, 2) <= 3
  {
    BitFieldIsMask(b, s, 2);
    assert Pow2(2) == 4;
  }
}
