/** Validation and field extraction of a completed frame: the seeded parity
    count, the two-parity check and the split into user id and facility code. */
module Decode {
  import opened BitOps
  import opened WiegandFmt
  import opened Wiegand

  /** `parity_t`: the seed of the parity accumulation. */
  datatype ParityKind = ParityEven | ParityOdd

  /** The parity of a word: the seed (0 for even, 1 for odd) exclusive-or'ed
      with the parity of the number of set bits among all 32 positions. */
  predicate ParityOf(kind: ParityKind, num: bv32)
  {
    (kind == ParityOdd) != (Ones(num, 0, 32) % 2 == 1)
  }

  /** `parity`: folds every bit of `num` into the seed, one position at a time. */
  method Parity(kind: ParityKind, num: bv32) returns (p: bool)
    ensures p == ParityOf(kind, num)
  {
    p := kind == ParityOdd;
    var i: bv32 := 0;
    while i < 32
      invariant i <= 32
      invariant p == ((kind == ParityOdd) != (Ones(num, 0, i) % 2 == 1))
    {
      OnesStep(num, 0, i);
      p := p != ((num >> i) & 1 == 1);
      i := i + 1;
    }
  }

  /** A boolean compared against a parity bit, as C promotes it. */
  function BitOf(b: bool): bv32
  {
    if b then 1 else 0
  }

  /** The high parity bit a frame should carry: the even parity of its
      high-masked bits. */
  function ExpectedHighBit(fmt: FmtDesc, bits: bv32): (r: bv32)
    ensures r <= 1
  {
    BitOf(ParityOf(ParityEven, bits & HighMask(fmt)))
  }

  /** The low parity bit a frame should carry: the odd parity of its
      low-masked bits. */
  function ExpectedLowBit(fmt: FmtDesc, bits: bv32): (r: bv32)
    ensures r <= 1
  {
    BitOf(ParityOf(ParityOdd, bits & LowMask(fmt)))
  }

  /** The frame carries the right parity bits at both parity indices. */
  predicate ParityGood(fmt: FmtDesc, bits: bv32)
    requires HighParityIdx(fmt) < 32 && LowParityIdx(fmt) < 32
  {
    && HighParityBit(fmt, bits) == ExpectedHighBit(fmt, bits)
    && LowParityBit(fmt, bits) == ExpectedLowBit(fmt, bits)
  }

  /** The high check fails: whatever the low check says, the frame is bad. */
  lemma HighMismatch(fmt: FmtDesc, bits: bv32, highParity: bool)
    requires HighParityIdx(fmt) < 32 && LowParityIdx(fmt) < 32
    requires highParity == ParityOf(ParityEven, bits & HighMask(fmt))
    requires HighParityBit(fmt, bits) != BitOf(highParity)
    ensures !ParityGood(fmt, bits)
  {}

  /** The low check fails: the frame is bad. */
  lemma LowMismatch(fmt: FmtDesc, bits: bv32, lowParity: bool)
    requires HighParityIdx(fmt) < 32 && LowParityIdx(fmt) < 32
    requires lowParity == ParityOf(ParityOdd, bits & LowMask(fmt))
    requires LowParityBit(fmt, bits) != BitOf(lowParity)
    ensures !ParityGood(fmt, bits)
  {}

  /** Both checks pass: the frame is good. */
  lemma BothMatch(fmt: FmtDesc, bits: bv32, highParity: bool, lowParity: bool)
    requires HighParityIdx(fmt) < 32 && LowParityIdx(fmt) < 32
    requires highParity == ParityOf(ParityEven, bits & HighMask(fmt))
    requires HighParityBit(fmt, bits) == BitOf(highParity)
    requires lowParity == ParityOf(ParityOdd, bits & LowMask(fmt))
    requires LowParityBit(fmt, bits) == BitOf(lowParity)
    ensures ParityGood(fmt, bits)
  {}

  /** `wieg_is_parity_good`: the high check first, then the low check. */
  method IsParityGood(fmt: FmtDesc, bits: bv32) returns (ok: bool)
    requires HighParityIdx(fmt) < 32 && LowParityIdx(fmt) < 32
    ensures ok == ParityGood(fmt, bits)
  {
    var highParity := Parity(ParityEven, bits & HighMask(fmt));
    if HighParityBit(fmt, bits) != BitOf(highParity) {
      HighMismatch(fmt, bits, highParity);
      return false;
    }
    var lowParity := Parity(ParityOdd, bits & LowMask(fmt));
    if LowParityBit(fmt, bits) != BitOf(lowParity) {
      LowMismatch(fmt, bits, lowParity);
      return false;
    }
    BothMatch(fmt, bits, highParity, lowParity);
    return true;
  }

  /** A single position counts one exactly when its bit is set. */
  lemma OnesOne(x: bv32, k: bv32)
    requires k < 32
    ensures Ones(x, k, k + 1) == if BitAt(x, k) then 1 else 0
  {
    assert k + 1 - 1 == k;
  }

  /** An even parity bit equal to the parity of `count` data bits makes the
      total count, parity bit included, even. */
  lemma MatchEven(received: bv32, isSet: bool, count: nat, total: nat)
    requires received <= 1 && (received == 1 <==> isSet)
    requires total == count + (if isSet then 1 else 0)
    ensures received == BitOf(count % 2 == 1) ==> total % 2 == 0
    ensures total % 2 == 0 ==> received == BitOf(count % 2 == 1)
  {}

  /** An odd parity bit equal to the complement of the parity of `count` data
      bits makes the total count, parity bit included, odd. */
  lemma MatchOdd(received: bv32, isSet: bool, count: nat, total: nat)
    requires received <= 1 && (received == 1 <==> isSet)
    requires total == (if isSet then 1 else 0) + count
    ensures received == BitOf(count % 2 == 0) ==> total % 2 == 1
    ensures total % 2 == 1 ==> received == BitOf(count % 2 == 0)
  {}

  /** The expected high parity bit of a 24-bit frame is the parity of the
      twelve data bits 13..24. */
  lemma ExpectedHigh24(x: bv32)
    ensures ExpectedHighBit(Fmt24, x) == BitOf(Ones(x, 13, 25) % 2 == 1)
  {
    HighMask24();
    OnesMasked(x, HighMask(Fmt24), 13, 25);
  }

  /** The expected low parity bit of a 24-bit frame is the complemented parity
      of the twelve data bits 1..12. */
  lemma ExpectedLow24(x: bv32)
    ensures ExpectedLowBit(Fmt24, x) == BitOf(Ones(x, 1, 13) % 2 == 0)
  {
    LowMask24();
    OnesMasked(x, LowMask(Fmt24), 1, 13);
  }

  /** The high half of the 24-bit check: bits 13..25 hold an even number of ones. */
  lemma HighCheck24(x: bv32)
    ensures HighParityBit(Fmt24, x) == ExpectedHighBit(Fmt24, x)
      ==> Ones(x, 13, 26) % 2 == 0
    ensures Ones(x, 13, 26) % 2 == 0
      ==> HighParityBit(Fmt24, x) == ExpectedHighBit(Fmt24, x)
  {
    ExpectedHigh24(x);
    OnesSplit(x, 13, 25, 26);
    OnesOne(x, 25);
    MatchEven(HighParityBit(Fmt24, x), BitAt(x, 25), Ones(x, 13, 25), Ones(x, 13, 26));
  }

  /** The low half of the 24-bit check: bits 0..12 hold an odd number of ones. */
  lemma LowCheck24(x: bv32)
    ensures LowParityBit(Fmt24, x) == ExpectedLowBit(Fmt24, x)
      ==> Ones(x, 0, 13) % 2 == 1
    ensures Ones(x, 0, 13) % 2 == 1
      ==> LowParityBit(Fmt24, x) == ExpectedLowBit(Fmt24, x)
  {
    ExpectedLow24(x);
    OnesSplit(x, 0, 1, 13);
    OnesOne(x, 0);
    MatchOdd(LowParityBit(Fmt24, x), BitAt(x, 0), Ones(x, 1, 13), Ones(x, 0, 13));
  }

  /** For the 24-bit layout the check is the H10301 rule: positions 13..25
      (twelve data bits and the leading parity bit) hold an even number of ones,
      and positions 0..12 (twelve data bits and the trailing parity bit) an odd
      number. */
  lemma ParityGood24(x: bv32)
    ensures ParityGood(Fmt24, x) ==> Ones(x, 13, 26) % 2 == 0 && Ones(x, 0, 13) % 2 == 1
    ensures Ones(x, 13, 26) % 2 == 0 && Ones(x, 0, 13) % 2 == 1 ==> ParityGood(Fmt24, x)
  {
    HighCheck24(x);
    LowCheck24(x);
  }

  /** C's `(uint16_t)` cast: keeps the low 16 bits. */
  function U16(x: bv32): bv16
  {
    (x & 0xFFFF) as bv16
  }

  /** `bits_to_card`: each field is masked out of the frame, shifted down to
      bit 0 and truncated to 16 bits. */
  function BitsToCard(fmt: FmtDesc, bits: bv32): (card: Card)
    requires FacOffset(fmt) < 32 && UidOffset(fmt) < 32
    ensures fmt == Fmt24 ==> card.facility <= 0xFF
  {
    Card(U16((bits & UidMask(fmt)) >> UidOffset(fmt)), U16((bits & FacMask(fmt)) >> FacOffset(fmt)))
  }

  /** The 24 data bits of a 26-bit frame: facility code at 17..24, user id at 1..16. */
  function Data24(facility: bv8, userId: bv16): bv32
  {
    ((facility as bv32) << 17) | ((userId as bv32) << 1)
  }

  /** A 26-bit frame: the high parity bit, the data bits and the low parity bit. */
  function Frame24(highBit: bv32, data: bv32, lowBit: bv32): bv32
  {
    (highBit << 25) | data | lowBit
  }

  /** A 26-bit frame for a facility code and a user id, with both parity bits
      set so that the frame passes the check. */
  function Encode24(facility: bv8, userId: bv16): bv32
  {
    var data := Data24(facility, userId);
    Frame24(ExpectedHighBit(Fmt24, data), data, ExpectedLowBit(Fmt24, data))
  }

  /** The check accepts a frame whose received parity bits are the expected ones. */
  lemma ParityGoodIntro(fmt: FmtDesc, bits: bv32)
    requires HighParityIdx(fmt) < 32 && LowParityIdx(fmt) < 32
    requires HighParityBit(fmt, bits) == ExpectedHighBit(fmt, bits)
    requires LowParityBit(fmt, bits) == ExpectedLowBit(fmt, bits)
    ensures ParityGood(fmt, bits)
  {}

  /** The expected high parity bit depends only on the high-masked bits. */
  lemma ExpectedHighSame(fmt: FmtDesc, a: bv32, b: bv32)
    requires a & HighMask(fmt) == b & HighMask(fmt)
    ensures ExpectedHighBit(fmt, a) == ExpectedHighBit(fmt, b)
  {}

  /** The expected low parity bit depends only on the low-masked bits. */
  lemma ExpectedLowSame(fmt: FmtDesc, a: bv32, b: bv32)
    requires a & LowMask(fmt) == b & LowMask(fmt)
    ensures ExpectedLowBit(fmt, a) == ExpectedLowBit(fmt, b)
  {}

  lemma FrameFits24(facility: bv8, userId: bv16, hp: bv32, lp: bv32)
    requires hp <= 1 && lp <= 1
    ensures Frame24(hp, Data24(facility, userId), lp) >> 26 == 0
  {}

  lemma FrameHighMask24(facility: bv8, userId: bv16, hp: bv32, lp: bv32)
    requires hp <= 1 && lp <= 1
    ensures Frame24(hp, Data24(facility, userId), lp) & HighMask(Fmt24) == Data24(facility, userId) & HighMask(Fmt24)
  {}

  lemma FrameLowMask24(facility: bv8, userId: bv16, hp: bv32, lp: bv32)
    requires hp <= 1 && lp <= 1
    ensures Frame24(hp, Data24(facility, userId), lp) & LowMask(Fmt24) == Data24(facility, userId) & LowMask(Fmt24)
  {}

  lemma FrameHighBit24(facility: bv8, userId: bv16, hp: bv32, lp: bv32)
    requires hp <= 1 && lp <= 1
    ensures HighParityBit(Fmt24, Frame24(hp, Data24(facility, userId), lp)) == hp
  {}

  lemma FrameLowBit24(facility: bv8, userId: bv16, hp: bv32, lp: bv32)
    requires hp <= 1 && lp <= 1
    ensures LowParityBit(Fmt24, Frame24(hp, Data24(facility, userId), lp)) == lp
  {}

  lemma FrameUid24(facility: bv8, userId: bv16, hp: bv32, lp: bv32)
    requires hp <= 1 && lp <= 1
    ensures U16((Frame24(hp, Data24(facility, userId), lp) & UidMask(Fmt24)) >> UidOffset(Fmt24)) == userId
  {}

  lemma FrameFac24(facility: bv8, userId: bv16, hp: bv32, lp: bv32)
    requires hp <= 1 && lp <= 1
    ensures U16((Frame24(hp, Data24(facility, userId), lp) & FacMask(Fmt24)) >> FacOffset(Fmt24)) == facility as bv16
  {}

  /** Decoding an assembled 26-bit frame gives back its fields, whatever its
      parity bits. */
  lemma FrameCard24(facility: bv8, userId: bv16, hp: bv32, lp: bv32)
    requires hp <= 1 && lp <= 1
    ensures BitsToCard(Fmt24, Frame24(hp, Data24(facility, userId), lp)) == Card(userId, facility as bv16)
  {
    FrameUid24(facility, userId, hp, lp);
    FrameFac24(facility, userId, hp, lp);
  }

  /** A frame whose parity bits are the expected ones for its data passes the
      high check. */
  lemma FrameHighGood24(facility: bv8, userId: bv16, hp: bv32, lp: bv32)
    requires hp == ExpectedHighBit(Fmt24, Data24(facility, userId)) && lp <= 1
    ensures HighParityBit(Fmt24, Frame24(hp, Data24(facility, userId), lp))
      == ExpectedHighBit(Fmt24, Frame24(hp, Data24(facility, userId), lp))
  {
    FrameHighMask24(facility, userId, hp, lp);
    FrameHighBit24(facility, userId, hp, lp);
    ExpectedHighSame(Fmt24, Frame24(hp, Data24(facility, userId), lp), Data24(facility, userId));
  }

  /** A frame whose parity bits are the expected ones for its data passes the
      low check. */
  lemma FrameLowGood24(facility: bv8, userId: bv16, hp: bv32, lp: bv32)
    requires hp <= 1 && lp == ExpectedLowBit(Fmt24, Data24(facility, userId))
    ensures LowParityBit(Fmt24, Frame24(hp, Data24(facility, userId), lp))
      == ExpectedLowBit(Fmt24, Frame24(hp, Data24(facility, userId), lp))
  {
    FrameLowMask24(facility, userId, hp, lp);
    FrameLowBit24(facility, userId, hp, lp);
    ExpectedLowSame(Fmt24, Frame24(hp, Data24(facility, userId), lp), Data24(facility, userId));
  }

  /** An encoded frame passes the parity check. */
  lemma EncodeGood24(facility: bv8, userId: bv16)
    ensures ParityGood(Fmt24, Encode24(facility, userId))
  {
    var data := Data24(facility, userId);
    var hp, lp := ExpectedHighBit(Fmt24, data), ExpectedLowBit(Fmt24, data);
    FrameHighGood24(facility, userId, hp, lp);
    FrameLowGood24(facility, userId, hp, lp);
    ParityGoodIntro(Fmt24, Frame24(hp, data, lp));
  }

  /** An encoded frame fits in 26 bits and decodes to its fields. */
  lemma EncodeCard24(facility: bv8, userId: bv16)
    ensures Encode24(facility, userId) >> 26 == 0
    ensures BitsToCard(Fmt24, Encode24(facility, userId)) == Card(userId, facility as bv16)
  {
    var data := Data24(facility, userId);
    var hp, lp := ExpectedHighBit(Fmt24, data), ExpectedLowBit(Fmt24, data);
    FrameFits24(facility, userId, hp, lp);
    FrameCard24(facility, userId, hp, lp);
  }

  /** Round trip: an encoded frame fits in 26 bits, passes the parity check and
      decodes to the facility code and user id it was built from. */
  lemma RoundTrip24(facility: bv8, userId: bv16)
    ensures Encode24(facility, userId) >> 26 == 0
    ensures ParityGood(Fmt24, Encode24(facility, userId))
    ensures BitsToCard(Fmt24, Encode24(facility, userId)) == Card(userId, facility as bv16)
  {
    EncodeGood24(facility, userId);
    EncodeCard24(facility, userId);
  }

  /** The data bits of a frame are rebuilt from the card it decodes to. */
  lemma CardData24(frame: bv32)
    ensures Data24(BitsToCard(Fmt24, frame).facility as bv8, BitsToCard(Fmt24, frame).userId)
      == frame & 0x01FFFFFE
  {}

  lemma DataHighMask24(frame: bv32)
    ensures (frame & 0x01FFFFFE) & HighMask(Fmt24) == frame & HighMask(Fmt24)
  {}

  lemma DataLowMask24(frame: bv32)
    ensures (frame & 0x01FFFFFE) & LowMask(Fmt24) == frame & LowMask(Fmt24)
  {}

  /** A frame of at most 26 bits is its two parity bits around its data bits. */
  lemma FrameSplit24(frame: bv32)
    requires frame >> 26 == 0
    ensures Frame24(HighParityBit(Fmt24, frame), frame & 0x01FFFFFE, LowParityBit(Fmt24, frame)) == frame
  {}

  /** The converse of the round trip: every 26-bit frame that passes the check
      is the encoding of the card it decodes to, so the parity bits carry no
      information of their own and decoding loses nothing. */
  lemma ValidFrameIsEncoding(frame: bv32)
    requires frame >> 26 == 0 && ParityGood(Fmt24, frame)
    ensures Encode24(BitsToCard(Fmt24, frame).facility as bv8, BitsToCard(Fmt24, frame).userId) == frame
  {
    var data := frame & 0x01FFFFFE;
    CardData24(frame);
    DataHighMask24(frame);
    DataLowMask24(frame);
    ExpectedHighSame(Fmt24, data, frame);
    ExpectedLowSame(Fmt24, data, frame);
    FrameSplit24(frame);
  }

  /** In the 24-bit layout, `raw` read back from a decoded card is the 24 data
      bits of the frame, parity bits removed, shifted down to bit 0. */
  lemma Raw24(bits: bv32)
    ensures BitsToCard(Fmt24, bits).Raw() == (bits & 0x01FFFFFE) >> 1
  {}

  /** Facility code 1 and user id 1 travel as 0x02020002: data bits 17 and 1,
      the leading parity bit set (one 1 among bits 13..24) and the trailing
      parity bit clear (one 1 among bits 1..12). */
  lemma EncodeExample24()
    ensures Encode24(1, 1) == 0x02020002
  {
    var x: bv32 := 0x00020002;
    assert Data24(1, 1) == x;
    OnesMaskDrops(0xFFFFFFFF, x, 13, 17);
    OnesOne(x, 17);
    OnesMaskDrops(0xFFFFFFFF, x, 18, 25);
    OnesSplit(x, 13, 17, 25);
    OnesSplit(x, 17, 18, 25);
    ExpectedHigh24(x);
    OnesOne(x, 1);
    OnesMaskDrops(0xFFFFFFFF, x, 2, 13);
    OnesSplit(x, 1, 2, 13);
    ExpectedLow24(x);
  }

  /** The worked frame passes the check and decodes to facility 1, user 1. */
  lemma Example24()
    ensures ParityGood(Fmt24, 0x02020002)
    ensures BitsToCard(Fmt24, 0x02020002) == Card(1, 1)
  {
    EncodeExample24();
    RoundTrip24(1, 1);
  }

  /** The frame 0x02008003 fails the low (odd) check: among positions 0..12 it
      has bits 0 and 1 set, an even count. */
  lemma Rejected24()
    ensures !ParityGood(Fmt24, 0x02008003)
  {
    var x: bv32 := 0x02008003;
    OnesOne(x, 0);
    OnesOne(x, 1);
    OnesMaskDrops(0xFFFFFFFF, x, 2, 13);
    OnesSplit(x, 0, 1, 13);
    OnesSplit(x, 1, 2, 13);
    ParityGood24(x);
  }
}
