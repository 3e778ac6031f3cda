/** The reader itself: the driver context `_ctx` (handler table, selected
    format, statistics) together with the accumulator and cursor of the bit
    task, and the public operations `wieg_init`, `wieg_evt_handler_reg` and
    `wieg_evt_handler_dereg`, plus one turn of the bit task's receive loop. */
module Reader {
  import opened BitOps
  import opened WiegandFmt
  import opened Wiegand
  import opened Decode
  import opened Registry
  import opened Assembler

  /** `wiegand_stats_t` */
  datatype Stats = Stats(numSwipes: nat, numBadParity: nat, numTimeout: nat)

  /** Whether each driver and kernel call of `wieg_init` succeeds: the three
      pin configuration calls for d0, the three for d1, the installation of
      the interrupt service, the two interrupt handlers and the queue
      creation.  These calls act on hardware and the kernel, so the model
      takes their outcomes as given. */
  datatype DriverResults = DriverResults(
    d0Config: bool, d1Config: bool, isrService: bool, d0Isr: bool, d1Isr: bool, queue: bool)

  /** Every call succeeds. */
  predicate AllSucceed(r: DriverResults)
  {
    r.d0Config && r.d1Config && r.isrService && r.d0Isr && r.d1Isr && r.queue
  }

  /** The status of the setup part of `wieg_init` as the source writes it:
      the results of the three d1 configuration calls are discarded and the
      check after them tests the d0 result a second time. */
  function SetupStatusAsWritten(r: DriverResults): (st: Status)
    ensures st == StatusOk <==> r.d0Config && r.isrService && r.d0Isr && r.d1Isr && r.queue
  {
    if !r.d0Config then StatusInval
    else if !r.d0Config then StatusInval
    else if !r.isrService then StatusNoResource
    else if !r.d0Isr then StatusNoResource
    else if !r.d1Isr then StatusNoResource
    else if !r.queue then StatusNoMem
    else StatusOk
  }

  /** A failing d1 pin configuration goes unnoticed: with every other call
      succeeding, the setup reports success. */
  lemma SetupAsWrittenIgnoresD1()
    ensures SetupStatusAsWritten(DriverResults(true, false, true, true, true, true)) == StatusOk
  {}

  /** The status of the setup part of `wieg_init`, with the d1 check testing
      the d1 results: the first failing step decides the status, and the
      setup succeeds exactly when every call does. */
  function SetupStatus(r: DriverResults): (st: Status)
    ensures st == StatusOk ==> AllSucceed(r)
    ensures AllSucceed(r) ==> st == StatusOk
    ensures !r.d0Config || !r.d1Config ==> st == StatusInval
    ensures r.d0Config && r.d1Config && (!r.isrService || !r.d0Isr || !r.d1Isr) ==> st == StatusNoResource
    ensures st != StatusUnimpl
  {
    if !r.d0Config then StatusInval
    else if !r.d1Config then StatusInval
    else if !r.isrService then StatusNoResource
    else if !r.d0Isr then StatusNoResource
    else if !r.d1Isr then StatusNoResource
    else if !r.queue then StatusNoMem
    else StatusOk
  }

  /** When the d1 configuration succeeds, the corrected setup reports what
      the source reports. */
  lemma SetupStatusAgrees(r: DriverResults)
    requires r.d1Config
    ensures SetupStatus(r) == SetupStatusAsWritten(r)
  {}

  /** The outcome of the format selection at the start of `wieg_init`. */
  datatype Selection = Selected(fmt: FmtDesc) | Rejected(status: Status)

  /** The format selection as the source writes it: only the 32-bit encoding
      is refused, and every other value that is not the 24-bit encoding falls
      to the 32-bit descriptor. */
  function SelectFormatAsWritten(encode: int): (r: Selection)
    ensures r.Rejected? ==> encode == WIEG_32_BIT && r.status == StatusUnimpl
    ensures encode == WIEG_32_BIT ==> r.Rejected?
    ensures encode == WIEG_24_BIT ==> r == Selected(Fmt24)
  {
    if encode == WIEG_32_BIT then Rejected(StatusUnimpl)
    else if encode == WIEG_24_BIT then Selected(Fmt24)
    else Selected(Fmt32)
  }

  /** An encoding outside the enumeration gets past the check and selects
      the 32-bit descriptor, which does not fit the accumulator. */
  lemma SelectAsWrittenOutOfRange()
    ensures SelectFormatAsWritten(2).Selected?
    ensures !FitsAccumulator(SelectFormatAsWritten(2).fmt)
  {
    Fmt32Broken(0);
  }

  /** The format selection the model uses: only the 24-bit encoding is
      accepted, so a selected format always fits the accumulator. */
  function SelectFormat(encode: int): (r: Selection)
    ensures r.Selected? ==> FitsAccumulator(r.fmt) && encode == WIEG_24_BIT
    ensures encode == WIEG_24_BIT ==> r.Selected?
    ensures r.Rejected? ==> r.status == StatusUnimpl
  {
    if encode == WIEG_24_BIT then Selected(Fmt24) else Rejected(StatusUnimpl)
  }

  /** On the two encodings the enumeration names, the corrected selection
      is the source's. */
  lemma SelectFormatAgrees(encode: int)
    requires encode == WIEG_24_BIT || encode == WIEG_32_BIT
    ensures SelectFormat(encode) == SelectFormatAsWritten(encode)
  {}

  /** Every card a 24-bit reader reports came from a frame that is exactly
      the encoding of that card: a well-formed accumulator completed by its
      last bit and accepted by the parity check holds the card's facility
      code and user id and the two parity bits computed from them. */
  lemma CompletedFrameIsEncoding(bits: bv32, b: bv32)
    requires WellFormed(Fmt24, bits, 0) && b <= 1
    requires ParityGood(Fmt24, Place(bits, 0, b))
    ensures var card := BitsToCard(Fmt24, Place(bits, 0, b));
      Encode24(card.facility as bv8, card.userId) == Place(bits, 0, b)
  {
    CompletedBounded(Fmt24, bits, b);
    ValidFrameIsEncoding(Place(bits, 0, b));
  }

  /** `_ctx` and the bit task. */
  class WiegandReader {
    /** `_ctx.handlers`: the fixed table of handler slots. */
    const handlers: array<Handler>
    /** `_ctx.fmt`: NULL until `wieg_init` selects a descriptor. */
    var fmt: Option<FmtDesc>
    /** `_ctx.stats` */
    var stats: Stats
    /** The bit task has been created. */
    var running: bool
    /** The bit task's accumulator `bits`. */
    var bits: bv32
    /** The bit task's cursor `ptr`: where the next bit goes. */
    var ptr: bv32
    /** How many bits of the current frame have arrived. */
    ghost var received: nat

    /** The table has its ten slots; every bad-parity swipe is a swipe and no
        timeout is ever counted; while the task runs, its format fits the
        accumulator, the accumulator is well formed and the cursor has moved
        down one position per bit received in the current frame. */
    ghost predicate Valid()
      reads this
    {
      && handlers.Length == WIEG_MAX_HANDLERS
      && stats.numBadParity <= stats.numSwipes
      && stats.numTimeout == 0
      && (running ==>
            && fmt.Some?
            && WellFormed(fmt.value, bits, ptr)
            && received + ToNat(ptr) + 1 == ToNat(TotalBits(fmt.value)))
    }

    /** The statically zeroed context before `wieg_init`. */
    constructor ()
      ensures Valid() && fresh(handlers)
      ensures fmt == None && !running && stats == Stats(0, 0, 0)
      ensures forall i :: 0 <= i < handlers.Length ==> handlers[i] == EmptyHandler
    {
      handlers := new Handler[WIEG_MAX_HANDLERS](_ => EmptyHandler);
      fmt := None;
      stats := Stats(0, 0, 0);
      running := false;
      bits := 0;
      ptr := 0;
      received := 0;
    }

    /** `wieg_init`: refuses an unsupported encoding before touching
        anything; otherwise selects the format, empties every slot's
        callback, zeroes the statistics and, if the setup succeeds, starts
        the bit task with an empty accumulator and the cursor at the top of
        the frame. */
    method Init(encode: int, results: DriverResults) returns (status: Status)
      requires Valid()
      modifies this, handlers
      ensures Valid()
      ensures SelectFormat(encode).Rejected? ==>
        && status == StatusUnimpl
        && unchanged(this) && unchanged(handlers)
      ensures SelectFormat(encode).Selected? ==>
        && fmt == Some(SelectFormat(encode).fmt)
        && stats == Stats(0, 0, 0)
        && (forall i :: 0 <= i < handlers.Length ==> handlers[i] == old(handlers[i]).(cb := None))
        && status == SetupStatus(results)
      ensures SelectFormat(encode).Selected? && AllSucceed(results) ==>
        running && bits == 0 && ptr == StartPtr(fmt.value)
      ensures SelectFormat(encode).Selected? && !AllSucceed(results) ==>
        running == old(running) && bits == old(bits) && ptr == old(ptr)
    {
      var sel := SelectFormat(encode);
      if sel.Rejected? {
        return sel.status;
      }
      if running {
        FitsOnly24(fmt.value);
      }
      fmt := Some(sel.fmt);

      ClearCallbacks();
      stats := Stats(0, 0, 0);

      status := SetupStatus(results);
      if status != StatusOk {
        return;
      }
      bits := 0;
      ptr := StartPtr(sel.fmt);
      received := 0;
      running := true;
      ResetWellFormed(sel.fmt);
      CursorStep(TotalBits(sel.fmt));
    }

    /** The loop of `wieg_init` that sets every slot's callback to NULL,
        leaving its event and context in place. */
    method ClearCallbacks()
      modifies handlers
      ensures forall i :: 0 <= i < handlers.Length ==> handlers[i] == old(handlers[i]).(cb := None)
    {
      for i := 0 to handlers.Length
        invariant forall j :: 0 <= j < i ==> handlers[j] == old(handlers[j]).(cb := None)
        invariant forall j :: i <= j < handlers.Length ==> handlers[j] == old(handlers[j])
      {
        handlers[i] := handlers[i].(cb := None);
      }
    }

    /** `wieg_evt_handler_reg`: a new-bit handler is refused without taking a
        slot; a new-card handler takes the lowest free slot, and nothing is
        taken when every slot is in use. */
    method Register(event: Event, cb: CallbackId, ctx: Context) returns (handle: Option<nat>)
      requires Valid()
      modifies handlers
      ensures Valid()
      ensures event == NewBit ==> handle == None
      ensures event == NewCard ==> handle == FirstFree(old(handlers[..]))
      ensures handle.Some? ==>
        handle.value < handlers.Length && handlers[..] == old(handlers[..])[handle.value := Taken(event, cb, ctx)]
      ensures handle.None? ==> handlers[..] == old(handlers[..])
    {
      if event == NewBit {
        return None;
      }
      for i := 0 to handlers.Length
        invariant handlers[..] == old(handlers[..])
        invariant forall j :: 0 <= j < i ==> !IsFree(handlers[j])
      {
        if handlers[i].cb == None {
          handlers[i] := Taken(event, cb, ctx);
          return Some(i);
        }
      }
      return None;
    }

    /** `wieg_evt_handler_dereg`: empties the slot's callback and succeeds. */
    method Deregister(handle: nat) returns (status: Status)
      requires Valid() && handle < handlers.Length
      modifies handlers
      ensures Valid()
      ensures status == StatusOk
      ensures handlers[..] == Cleared(old(handlers[..]), handle)
    {
      handlers[handle] := handlers[handle].(cb := None);
      return StatusOk;
    }

    /** The NEWCARD loop of the bit task: calls each slot's callback, in slot
        order, where one is set for new cards. */
    method Fire(card: Card) returns (fired: seq<Invocation>)
      ensures fired == Dispatch(handlers[..], card)
    {
      fired := [];
      for i := 0 to handlers.Length
        invariant fired == Dispatch(handlers[..i], card)
      {
        assert handlers[..i + 1][..i] == handlers[..i];
        if handlers[i].cb != None && handlers[i].event == NewCard {
          fired := fired + [Invocation(i, handlers[i].cb.value, NewCard, card, handlers[i].ctx)];
        }
      }
      assert handlers[..handlers.Length] == handlers[..];
    }

    /** The handling of a completed frame: it counts as a swipe; if it
        passes the parity check its card goes to every new-card handler,
        otherwise it counts as a bad parity. */
    method Complete(f: FmtDesc, frame: bv32) returns (fired: seq<Invocation>)
      requires FitsAccumulator(f)
      modifies this`stats
      ensures stats.numSwipes == old(stats.numSwipes) + 1
      ensures stats.numTimeout == old(stats.numTimeout)
      ensures ParityGood(f, frame) ==>
        stats.numBadParity == old(stats.numBadParity) && fired == Dispatch(handlers[..], BitsToCard(f, frame))
      ensures !ParityGood(f, frame) ==>
        stats.numBadParity == old(stats.numBadParity) + 1 && fired == []
    {
      stats := stats.(numSwipes := stats.numSwipes + 1);
      var ok := IsParityGood(f, frame);
      if ok {
        var card := BitsToCard(f, frame);
        fired := Fire(card);
      } else {
        stats := stats.(numBadParity := stats.numBadParity + 1);
        fired := [];
      }
    }

    /** `bits = 0; ptr = total_bits - 1` on a receive timeout: the partial
        frame is dropped and the next bit starts a new frame. */
    method Discard()
      requires Valid() && running
      modifies this`bits, this`ptr, this`received
      ensures Valid() && running
      ensures bits == 0 && ptr == StartPtr(fmt.value)
    {
      var f := fmt.value;
      bits := 0;
      ptr := StartPtr(f);
      received := 0;
      ResetWellFormed(f);
      CursorStep(TotalBits(f));
    }

    /** `bits |= (bit << ptr); ptr--` for a bit that does not complete the
        frame: the bit lands at the cursor, which moves down one position. */
    method Advance(b: bv32)
      requires Valid() && running && ptr != 0 && b <= 1
      modifies this`bits, this`ptr, this`received
      ensures Valid() && running
      ensures bits == Place(old(bits), old(ptr), b) && ptr == old(ptr) - 1
      ensures received == old(received) + 1 < ToNat(TotalBits(fmt.value))
    {
      PlaceWellFormed(fmt.value, bits, ptr, b);
      CursorStep(ptr);
      bits := Place(bits, ptr, b);
      received := received + 1;
      ptr := ptr - 1;
    }

    /** The bit that fills position 0: the frame is complete and handled,
        then `bits = 0; ptr = total_bits; ptr--` starts the next frame. */
    method Finish(b: bv32) returns (fired: seq<Invocation>)
      requires Valid() && running && ptr == 0 && b <= 1
      modifies this`bits, this`ptr, this`received, this`stats
      ensures Valid() && running
      ensures old(received) + 1 == ToNat(TotalBits(fmt.value))
      ensures bits == 0 && ptr == StartPtr(fmt.value)
      ensures stats.numSwipes == old(stats.numSwipes) + 1
      ensures stats.numTimeout == old(stats.numTimeout)
      ensures ParityGood(fmt.value, Place(old(bits), 0, b)) ==>
        && stats.numBadParity == old(stats.numBadParity)
        && fired == Dispatch(handlers[..], BitsToCard(fmt.value, Place(old(bits), 0, b)))
      ensures !ParityGood(fmt.value, Place(old(bits), 0, b)) ==>
        && stats.numBadParity == old(stats.numBadParity) + 1
        && fired == []
    {
      var f := fmt.value;
      bits := Place(bits, ptr, b);
      fired := Complete(f, bits);
      bits := 0;
      ptr := TotalBits(f);
      ptr := ptr - 1;
      received := 0;
      ResetWellFormed(f);
      CursorStep(TotalBits(f));
    }

    /** One turn of the bit task's loop.  A timeout discards the partial
        frame.  A bit is or'ed in at the cursor; when it fills position 0 the
        frame is complete: it counts as a swipe, and either passes the parity
        check and is reported to every new-card handler, or counts as a bad
        parity; then the accumulator and cursor start over.  Otherwise the
        cursor moves down one position. */
    method Step(ev: Input) returns (fired: seq<Invocation>)
      requires Valid() && running
      modifies this
      ensures Valid() && running && fmt == old(fmt)
      ensures ev == Timeout ==>
        && bits == 0 && ptr == StartPtr(fmt.value)
        && stats == old(stats) && fired == []
      ensures ev != Timeout && old(ptr) != 0 ==>
        && bits == Place(old(bits), old(ptr), BitValue(ev)) && ptr == old(ptr) - 1
        && stats == old(stats) && fired == []
        && received == old(received) + 1 < ToNat(TotalBits(fmt.value))
      ensures ev != Timeout && old(ptr) == 0 ==>
        && old(received) + 1 == ToNat(TotalBits(fmt.value))
        && bits == 0 && ptr == StartPtr(fmt.value)
        && stats.numSwipes == old(stats.numSwipes) + 1
        && stats.numTimeout == old(stats.numTimeout)
      ensures ev != Timeout && old(ptr) == 0 && ParityGood(fmt.value, Place(old(bits), 0, BitValue(ev))) ==>
        && stats.numBadParity == old(stats.numBadParity)
        && fired == Dispatch(handlers[..], BitsToCard(fmt.value, Place(old(bits), 0, BitValue(ev))))
      ensures ev != Timeout && old(ptr) == 0 && !ParityGood(fmt.value, Place(old(bits), 0, BitValue(ev))) ==>
        && stats.numBadParity == old(stats.numBadParity) + 1
        && fired == []
    {
      if ev == Timeout {
        Discard();
        fired := [];
      } else if ptr != 0 {
        Advance(BitValue(ev));
        fired := [];
      } else {
        fired := Finish(BitValue(ev));
      }
    }
  }
}
