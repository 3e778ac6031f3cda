/** Card-format descriptors: which bits of a received frame feed the two parity
    checks, where the facility code and the user id sit, how long a frame is and
    where its two parity bits are.  There are exactly two descriptors, both
    constant, and the reader refers to one of them by pointer; the model names
    the descriptor a pointer designates and reads each field as a function of
    that name. */
module WiegandFmt {
  import opened BitOps

  // 26-bit frame carrying 24 data bits (8-bit facility, 16-bit user id)
  const WIEG_24BIT_TOTAL_BITS: bv32 := 26
  const WIEG_24BIT_HIGH_MASK: bv32 := 0x01FFE000
  const WIEG_24BIT_LOW_MASK: bv32 := 0x00001FFE
  const WIEG_24BIT_FAC_MASK: bv32 := 0x01FE0000
  const WIEG_24BIT_FAC_OFFSET: bv32 := 17
  const WIEG_24BIT_UID_MASK: bv32 := 0x0001FFFE
  const WIEG_24BIT_UID_OFFSET: bv32 := 1
  const WIEG_24BIT_HIGH_PARITY_IDX: bv32 := 25
  const WIEG_24BIT_LOW_PARITY_IDX: bv32 := 0

  // 34-bit frame carrying 32 data bits; documented as broken in the source
  const WIEG_32BIT_TOTAL_BITS: bv32 := 34
  const WIEG_32BIT_HIGH_MASK: bv32 := 0xFFFE0000
  const WIEG_32BIT_LOW_MASK: bv32 := 0x0001FFFE
  const WIEG_32BIT_FAC_MASK: bv32 := 0xFFFE0000
  const WIEG_32BIT_FAC_OFFSET: bv32 := 17
  const WIEG_32BIT_UID_MASK: bv32 := 0x0001FFFE
  const WIEG_32BIT_UID_OFFSET: bv32 := 1
  const WIEG_32BIT_HIGH_PARITY_IDX: bv32 := 33
  const WIEG_32BIT_LOW_PARITY_IDX: bv32 := 0

  /** A `const wieg_fmt_desc_t *`: `wieg_fmt_24bit` or `wieg_fmt_32bit`. */
  datatype FmtDesc = Fmt24 | Fmt32

  // The fields of `wieg_fmt_desc_t`.  The masks are `uint32_t`; the lengths,
  // offsets and indices are small non-negative C `int`s, held here as words
  // because they are used as shift counts.

  /** Bits covered by the (even) high parity bit. */
  function HighMask(fmt: FmtDesc): bv32
  {
    match fmt
    case Fmt24 => WIEG_24BIT_HIGH_MASK
    case Fmt32 => WIEG_32BIT_HIGH_MASK
  }

  /** Bits covered by the (odd) low parity bit. */
  function LowMask(fmt: FmtDesc): bv32
  {
    match fmt
    case Fmt24 => WIEG_24BIT_LOW_MASK
    case Fmt32 => WIEG_32BIT_LOW_MASK
  }

  /** Bits of the facility code. */
  function FacMask(fmt: FmtDesc): bv32
  {
    match fmt
    case Fmt24 => WIEG_24BIT_FAC_MASK
    case Fmt32 => WIEG_32BIT_FAC_MASK
  }

  /** Bits of the user id. */
  function UidMask(fmt: FmtDesc): bv32
  {
    match fmt
    case Fmt24 => WIEG_24BIT_UID_MASK
    case Fmt32 => WIEG_32BIT_UID_MASK
  }

  /** Frame length, parity bits included. */
  function TotalBits(fmt: FmtDesc): bv32
  {
    match fmt
    case Fmt24 => WIEG_24BIT_TOTAL_BITS
    case Fmt32 => WIEG_32BIT_TOTAL_BITS
  }

  /** Position of the facility code's lowest bit. */
  function FacOffset(fmt: FmtDesc): bv32
  {
    match fmt
    case Fmt24 => WIEG_24BIT_FAC_OFFSET
    case Fmt32 => WIEG_32BIT_FAC_OFFSET
  }

  /** Position of the user id's lowest bit. */
  function UidOffset(fmt: FmtDesc): bv32
  {
    match fmt
    case Fmt24 => WIEG_24BIT_UID_OFFSET
    case Fmt32 => WIEG_32BIT_UID_OFFSET
  }

  /** Position of the high parity bit. */
  function HighParityIdx(fmt: FmtDesc): bv32
  {
    match fmt
    case Fmt24 => WIEG_24BIT_HIGH_PARITY_IDX
    case Fmt32 => WIEG_32BIT_HIGH_PARITY_IDX
  }

  /** Position of the low parity bit. */
  function LowParityIdx(fmt: FmtDesc): bv32
  {
    match fmt
    case Fmt24 => WIEG_24BIT_LOW_PARITY_IDX
    case Fmt32 => WIEG_32BIT_LOW_PARITY_IDX
  }

  /** The shifts the decoder performs with this descriptor stay inside the
      `uint32_t` accumulator: the frame fits in 32 bits and every parity index
      and field offset is a valid shift count. */
  predicate FitsAccumulator(fmt: FmtDesc)
  {
    && 0 < TotalBits(fmt) <= 32
    && HighParityIdx(fmt) < TotalBits(fmt)
    && LowParityIdx(fmt) < TotalBits(fmt)
    && FacOffset(fmt) < 32
    && UidOffset(fmt) < 32
  }

  /** `WIEG_HIGH_PARITY_BIT(fmt, x)`: the received high parity bit. */
  function HighParityBit(fmt: FmtDesc, x: bv32): (r: bv32)
    requires HighParityIdx(fmt) < 32
    ensures r <= 1
    ensures r == 1 <==> BitAt(x, HighParityIdx(fmt))
  {
    (x >> HighParityIdx(fmt)) & 1
  }

  /** `WIEG_LOW_PARITY_BIT(fmt, x)`: the received low parity bit. */
  function LowParityBit(fmt: FmtDesc, x: bv32): (r: bv32)
    requires LowParityIdx(fmt) < 32
    ensures r <= 1
    ensures r == 1 <==> BitAt(x, LowParityIdx(fmt))
  {
    (x >> LowParityIdx(fmt)) & 1
  }

  /** Of the two descriptors only the 24-bit one fits the accumulator. */
  lemma FitsOnly24(fmt: FmtDesc)
    ensures FitsAccumulator(fmt) ==> fmt == Fmt24
    ensures fmt == Fmt24 ==> FitsAccumulator(fmt)
  {}

  /** The 24-bit high parity mask covers positions 13..24. */
  lemma HighMask24()
    ensures forall k: bv32 :: k < 32 ==> (BitAt(HighMask(Fmt24), k) <==> 13 <= k < 25)
  {}

  /** The 24-bit low parity mask covers positions 1..12. */
  lemma LowMask24()
    ensures forall k: bv32 :: k < 32 ==> (BitAt(LowMask(Fmt24), k) <==> 1 <= k < 13)
  {}

  /** The 24-bit facility mask covers positions 17..24. */
  lemma FacMask24()
    ensures forall k: bv32 :: k < 32 ==> (BitAt(FacMask(Fmt24), k) <==> 17 <= k < 25)
  {}

  /** The 24-bit user id mask covers positions 1..16. */
  lemma UidMask24()
    ensures forall k: bv32 :: k < 32 ==> (BitAt(UidMask(Fmt24), k) <==> 1 <= k < 17)
  {}

  /** The 24-bit layout is consistent: the two parity ranges split the data
      bits 1..24 between them, so do the facility and the user id, and the
      parity bits lie just outside the data bits, all below bit 26. */
  lemma Fmt24Layout()
    ensures WIEG_24BIT_HIGH_MASK & WIEG_24BIT_LOW_MASK == 0
    ensures WIEG_24BIT_HIGH_MASK | WIEG_24BIT_LOW_MASK == 0x01FFFFFE
    ensures WIEG_24BIT_FAC_MASK & WIEG_24BIT_UID_MASK == 0
    ensures WIEG_24BIT_FAC_MASK | WIEG_24BIT_UID_MASK == 0x01FFFFFE
    ensures WIEG_24BIT_HIGH_PARITY_IDX == WIEG_24BIT_TOTAL_BITS - 1
    ensures WIEG_24BIT_LOW_PARITY_IDX == 0
  {}

  /** The 32-bit descriptor cannot run on a 32-bit accumulator: its frame is 34
      bits long, its high parity bit would sit at position 33, and its facility
      mask yields at most 15 bits of the 16-bit facility code. */
  lemma Fmt32Broken(x: bv32)
    ensures !FitsAccumulator(Fmt32)
    ensures TotalBits(Fmt32) > 32 && HighParityIdx(Fmt32) >= 32
    ensures (x & FacMask(Fmt32)) >> FacOffset(Fmt32) < 0x8000
  {}

  /** Both descriptors put the user id at mask 0x0001FFFE, offset 1, and the
      low parity bit at position 0. */
  lemma SharedUserIdLayout()
    ensures UidMask(Fmt24) == UidMask(Fmt32) == 0x0001FFFE
    ensures UidOffset(Fmt24) == UidOffset(Fmt32) == 1
    ensures LowParityIdx(Fmt24) == LowParityIdx(Fmt32) == 0
  {}
}
