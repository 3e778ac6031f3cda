/** The frame assembler of the bit task: a 32-bit accumulator and a cursor
    that counts down from the last position of the frame.  Each received bit
    is or'ed in at the cursor, so the first bit of a frame lands at the top
    and the last one at position 0.  This module states the shape of the
    accumulator between steps and what one placement does to it. */
module Assembler {
  import opened BitOps
  import opened WiegandFmt

  /** What one turn of the task's receive loop gets from the queue: the 0
      queued by the d0 interrupt, the 1 queued by the d1 interrupt, or
      nothing before the receive timeout. */
  datatype Input = Bit0 | Bit1 | Timeout

  /** The integer a bit input carries through the queue. */
  function BitValue(ev: Input): (b: bv32)
    requires ev != Timeout
    ensures b <= 1
    ensures b == 1 <==> ev == Bit1
  {
    if ev == Bit1 then 1 else 0
  }

  /** Where the cursor stands before the first bit of a frame. */
  function StartPtr(fmt: FmtDesc): (p: bv32)
    requires FitsAccumulator(fmt)
    ensures p < TotalBits(fmt) && p + 1 == TotalBits(fmt)
  {
    TotalBits(fmt) - 1
  }

  /** `bits |= (bit << ptr)` */
  function Place(bits: bv32, ptr: bv32, b: bv32): bv32
    requires ptr < 32 && b <= 1
  {
    bits | (b << ptr)
  }

  /** Placing never clears a bit that was already set. */
  lemma PlaceNeverClears(bits: bv32, ptr: bv32, b: bv32)
    requires ptr < 32 && b <= 1
    ensures Place(bits, ptr, b) & bits == bits
  {}

  /** Placing a 0 leaves the accumulator as it was. */
  lemma PlaceZero(bits: bv32, ptr: bv32)
    requires ptr < 32
    ensures Place(bits, ptr, 0) == bits
  {}

  /** No bit at or above `total_bits` is set, i.e. `bits < 2^total_bits`. */
  predicate Bounded(fmt: FmtDesc, bits: bv32)
    requires FitsAccumulator(fmt)
  {
    bits >> TotalBits(fmt) == 0
  }

  /** No bit at or below the cursor is set yet: shifting the positions
      0 .. ptr up to the top of the word leaves nothing. */
  predicate ClearBelow(bits: bv32, ptr: bv32)
    requires ptr < 32
  {
    bits << (31 - ptr) == 0
  }

  /** What `ClearBelow` means position by position. */
  lemma ClearBelowAt(bits: bv32, ptr: bv32, k: bv32)
    requires ptr < 32 && k <= ptr
    requires ClearBelow(bits, ptr)
    ensures !BitAt(bits, k)
  {}

  /** The state between two turns of the loop: a usable format, the cursor
      inside the frame, and set bits only strictly between the cursor and
      the end of the frame. */
  predicate WellFormed(fmt: FmtDesc, bits: bv32, ptr: bv32)
  {
    && FitsAccumulator(fmt)
    && ptr < TotalBits(fmt)
    && Bounded(fmt, bits)
    && ClearBelow(bits, ptr)
  }

  /** The reset state (after a frame, after a timeout, at start) is well formed. */
  lemma ResetWellFormed(fmt: FmtDesc)
    requires FitsAccumulator(fmt)
    ensures WellFormed(fmt, 0, StartPtr(fmt))
  {}

  /** Placing a bit leaves every position other than the cursor as it was. */
  lemma PlaceKeeps(bits: bv32, ptr: bv32, b: bv32, k: bv32)
    requires ptr < 32 && k < 32 && b <= 1 && k != ptr
    ensures BitAt(Place(bits, ptr, b), k) ==> BitAt(bits, k)
    ensures BitAt(bits, k) ==> BitAt(Place(bits, ptr, b), k)
  {}

  /** Onto a clear cursor position, placing a bit sets it exactly when the
      bit is 1. */
  lemma PlaceSets(bits: bv32, ptr: bv32, b: bv32)
    requires ptr < 32 && b <= 1 && !BitAt(bits, ptr)
    ensures BitAt(Place(bits, ptr, b), ptr) ==> b == 1
    ensures b == 1 ==> BitAt(Place(bits, ptr, b), ptr)
  {}

  /** A placement at a cursor inside the frame keeps the accumulator below
      `2^total_bits`. */
  lemma PlaceBounded(fmt: FmtDesc, bits: bv32, ptr: bv32, b: bv32)
    requires FitsAccumulator(fmt) && ptr < TotalBits(fmt) && b <= 1
    requires Bounded(fmt, bits)
    ensures Bounded(fmt, Place(bits, ptr, b))
  {}

  /** After a placement the positions below the cursor are still clear. */
  lemma PlaceClear(bits: bv32, ptr: bv32, b: bv32)
    requires 0 < ptr < 32 && b <= 1
    requires ClearBelow(bits, ptr)
    ensures ClearBelow(Place(bits, ptr, b), ptr - 1)
  {}

  /** One bit that does not complete the frame keeps the state well formed
      with the cursor one position lower. */
  lemma PlaceWellFormed(fmt: FmtDesc, bits: bv32, ptr: bv32, b: bv32)
    requires WellFormed(fmt, bits, ptr) && ptr != 0 && b <= 1
    ensures WellFormed(fmt, Place(bits, ptr, b), ptr - 1)
  {
    PlaceBounded(fmt, bits, ptr, b);
    PlaceClear(bits, ptr, b);
  }

  /** The bit that completes a frame goes to position 0, and the completed
      frame still lies below `2^total_bits`. */
  lemma CompletedBounded(fmt: FmtDesc, bits: bv32, b: bv32)
    requires WellFormed(fmt, bits, 0) && b <= 1
    ensures Bounded(fmt, Place(bits, 0, b))
    ensures BitAt(Place(bits, 0, b), 0) ==> b == 1
    ensures b == 1 ==> BitAt(Place(bits, 0, b), 0)
  {
    PlaceBounded(fmt, bits, 0, b);
    PlaceSets(bits, 0, b);
  }

  /** Counting down: the cursor's numeric value drops by one per placement. */
  lemma CursorStep(ptr: bv32)
    requires ptr != 0
    ensures ToNat(ptr - 1) + 1 == ToNat(ptr)
  {
    assert ptr - 1 + 1 == ptr;
  }

  /** A frame of the 24-bit format takes exactly 26 bits: the cursor starts at
      position 25, and the bit that completes a frame is the one received when
      `received + 1 == ToNat(TotalBits(fmt))`, i.e. the 26th. */
  lemma FrameLength24()
    ensures ToNat(StartPtr(Fmt24)) == 25
    ensures ToNat(TotalBits(Fmt24)) == 26
  {
    ToNatValue(25);
    ToNatValue(26);
  }

  /** With the 24-bit format, the bit-count clause of the reader's invariant
      puts the cursor at position 0, where the next bit completes the frame,
      exactly when 25 bits of the frame have been received: the frame completes
      on its 26th bit. */
  lemma FrameCompletes24(received: nat, ptr: bv32)
    requires received + ToNat(ptr) + 1 == ToNat(TotalBits(Fmt24))
    ensures ptr == 0 ==> received + 1 == 26
    ensures received + 1 == 26 ==> ptr == 0
  {
    FrameLength24();
  }

  /** The numeric value of a small word. */
  lemma {:induction false} ToNatValue(k: bv32)
    requires k <= 32
    ensures ToNat(k) == k as nat
    decreases k
  {
    if k != 0 {
      ToNatValue(k - 1);
    }
  }
}
