/** The public vocabulary of the reader: events, encodings, the card value
    handed to callbacks, status codes, and the opaque pointers callers supply. */
module Wiegand {

  /** A C pointer that may be NULL. */
  datatype Option<T> = None | Some(value: T)

  /** `wieg_evt_t` */
  datatype Event =
    | NewCard   // a new, valid card was received
    | NewBit    // a single bit was received (never delivered)

  /** `wieg_encoding_t` is a C enum: any `int` can be passed, two are named. */
  const WIEG_24_BIT: int := 0
  const WIEG_32_BIT: int := 1

  /** The status codes the reader returns (`STATUS_OK` and the negated
      `STATUS_UNIMPL`, `STATUS_INVAL`, `STATUS_NO_RESOURCE`, `STATUS_NOMEM`). */
  datatype Status = StatusOk | StatusUnimpl | StatusInval | StatusNoResource | StatusNoMem

  /** The callback function pointer registered for an event (never NULL). */
  type CallbackId = nat

  /** The opaque `void *ctx` a caller registers alongside its callback. */
  type Context = nat

  /** `card_t`: a user id and a facility code of 16 bits each.  Its `raw`
      member is not a third field but the same four bytes read as one word. */
  datatype Card = Card(userId: bv16, facility: bv16)
  {
    /** `card_t.raw` on the little-endian target: the user id is the low half
        of the word and the facility code the high half. */
    function Raw(): (r: bv32)
      ensures r >> 16 == facility as bv32
      ensures r & 0xFFFF == userId as bv32
    {
      ((facility as bv32) << 16) | (userId as bv32)
    }
  }
}
