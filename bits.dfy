/**
 * 8-bit I/O registers and the read-modify-write stores the controller
 * performs on them with `reg |= MASK` and `reg &= ~MASK`. A register value
 * or mask is given by the positions of its 1 bits: `|` is then union,
 * `& ~` is difference and `&` is intersection.
 */
module Bits {

  /** A bit position of an 8-bit register, 0 for the least significant bit. */
  newtype Bit = b: int | 0 <= b < 8

  /** An 8-bit register value or mask, as the set of its 1 bits. */
  type Byte = set<Bit>

  /** `after` is `before` with every bit of `mask` set and every other bit kept. */
  predicate Raised(before: Byte, after: Byte, mask: Byte) {
    mask <= after && after - mask == before - mask
  }

  /** `after` is `before` with every bit of `mask` cleared and every other bit kept. */
  predicate Lowered(before: Byte, after: Byte, mask: Byte) {
    after * mask == {} && after - mask == before - mask
  }

  /** `reg |= mask` */
  function SetBits(reg: Byte, mask: Byte): (r: Byte)
    ensures Raised(reg, r, mask)
  {
    reg + mask
  }

  /** `reg &= ~mask` */
  function ClearBits(reg: Byte, mask: Byte): (r: Byte)
    ensures Lowered(reg, r, mask)
  {
    reg - mask
  }

  /** Raised and Lowered each pin down the new register value completely. */
  lemma RaisedLoweredUnique(before: Byte, a: Byte, b: Byte, mask: Byte)
    ensures Raised(before, a, mask) && Raised(before, b, mask) ==> a == b
    ensures Lowered(before, a, mask) && Lowered(before, b, mask) ==> a == b
  {
    if Raised(before, a, mask) && Raised(before, b, mask) {
      assert a == (a - mask) + mask;
      assert b == (b - mask) + mask;
    }
    if Lowered(before, a, mask) && Lowered(before, b, mask) {
      forall x | x in a + b ensures x !in mask {
        assert x !in a * mask && x !in b * mask;
      }
      assert a == a - mask;
      assert b == b - mask;
    }
  }

}
