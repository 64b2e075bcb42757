/** Values shared by every part of the lockbox model: the API's return codes,
    an optional value, and single-bit access to 32-bit registers.
    Register words are `bv32`; bit positions are `bv32` as well, as in the
    C shifts `1 << pin`. */
module Common {

  /** The RP_* return codes that the modelled operations produce.
      Their numeric values are defined in lockbox.h, which is not part of this model. */
  datatype Status =
    | Ok    // RP_OK
    | EOOR  // RP_EOOR: value out of range
    | ELID  // RP_ELID: LED input direction is not valid
    | EWIP  // RP_EWIP: writing to an input pin
    | EPN   // RP_EPN: invalid pin (or PID) number
    | EIPV  // RP_EIPV: invalid parameter value
    | EOCF  // RP_EOCF: failed to open the config file
    | EICV  // RP_EICV: incompatible config file version

  datatype Option<+T> = None | Some(value: T)

  /** What a getter returns: its status and the value it stores through its
      out-pointer, or None when it returns before storing anything. */
  datatype Reading<+T> = Reading(status: Status, value: Option<T>)

  /** Bit k of a register word, `(w >> k) & 0x1` read as a truth value. */
  function Bit(w: bv32, k: bv32): bool
    requires k < 32
  {
    (w >> k) & 1 == 1
  }

  /** The read-modify-write `(w & ~(1 << k)) | ((v << k) & (1 << k))`
      that the digital-pin operations apply to one register. */
  function WriteBit(w: bv32, k: bv32, v: bv32): bv32
    requires k < 32
  {
    (w & !(1 << k)) | ((v << k) & (1 << k))
  }

  /** After WriteBit, bit k holds the low bit of v. */
  lemma WriteBitSame(w: bv32, k: bv32, v: bv32)
    requires k < 32
    ensures Bit(WriteBit(w, k, v), k) == (v & 1 == 1)
  {
  }

  /** Two words agree on every bit outside `bits`. */
  predicate SameOutside(a: bv32, b: bv32, bits: bv32) {
    a & !bits == b & !bits
  }

  /** WriteBit leaves every bit other than k as it was. */
  lemma WriteBitRest(w: bv32, k: bv32, v: bv32)
    requires k < 32
    ensures SameOutside(WriteBit(w, k, v), w, SingleBit(k))
  {
  }

  /** Reading bit j after writing a different bit k gives the old bit j. */
  lemma WriteBitOther(w: bv32, k: bv32, v: bv32, j: bv32)
    requires k < 32 && j < 32 && j != k
    ensures Bit(WriteBit(w, k, v), j) == Bit(w, j)
  {
  }

  /** The mask `1 << k` of bit k. */
  function SingleBit(k: bv32): bv32
    requires k < 32
  {
    1 << k
  }

  /** Single-bit masks are never zero, and two different ones share no bit. */
  lemma SingleBits(a: bv32, b: bv32)
    requires a < 32 && b < 32
    ensures SingleBit(a) != 0
    ensures a != b ==> SingleBit(a) & SingleBit(b) == 0
  {
  }

  /** A single bit below position n lies inside the low-n-bit mask. */
  lemma SingleBitBelow(k: bv32, n: bv32)
    requires k < n < 32
    ensures SingleBit(k) & (SingleBit(n) - 1) == SingleBit(k)
  {
  }
}
