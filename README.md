# Wiegand card-read decoder

A Dafny model of the Wiegand reader driver of the CheepCheep door
controller (`main/wiegand/`). A card reader sends a frame one bit at a
time. A pulse on line d0 sends a 0 and a pulse on line d1 sends a 1.

The driver works in four stages:

- It collects the bits, first bit highest, into a 32-bit accumulator.
- It validates the finished frame with two parity bits: an even bit over the high half and an odd bit over the low half. This is the H10301 26-bit layout.
- It extracts an 8-bit facility code and a 16-bit user id.
- It hands the resulting card to every callback registered for new cards, in slot order.

The model covers:

- the two constant format descriptors;
- the parity, validation and extraction functions;
- one turn of the bit task's receive loop;
- the handler table;
- `wieg_init`, `wieg_evt_handler_reg` and `wieg_evt_handler_dereg`.

Modules:

- `BitOps`: bit access and counting on 32-bit words (`BitAt`, `Ones`).
- `WiegandFmt`: the `WIEG_24BIT_*` and `WIEG_32BIT_*` constants, and the two descriptors. A descriptor pointer is modelled as `Fmt24 | Fmt32`, and each descriptor field as a function of it. The parity-bit getters are here too.
- `Wiegand`: the public types, namely events, encodings, status codes and `card_t`. `card_t.raw` is the overlay of `user_id` (low half) and `facility` (high half).
- `Decode`: `parity` (a loop), `wieg_is_parity_good` and `bits_to_card`. For the 24-bit format it also holds the frame encoder, the round trip and its converse.
- `Registry`: the handler table as a sequence of slots. It gives the lowest free slot, deregistration and the ordered dispatch of a new card.
- `Assembler`: the accumulator and cursor of the bit task. It states what a placement does and the shape the state keeps between turns.
- `Reader`: the class `WiegandReader`. It holds `_ctx` (handler array, format, statistics) together with the task's `bits` and `ptr`. Its methods are `Init`, `Register`, `Deregister` and `Step`. `Step` handles one receive: `Bit0`, `Bit1` or `Timeout`. It returns the callback invocations it makes as a trace.

Callbacks are opaque. A callback call is recorded as an `Invocation` of the slot, the callback, the event, the card and the registered context.

## Where the code and its comments differ

The model follows the code in each case:

- **`num_timeout` never changes.** The comment on `wiegand_stats_t` (main/wiegand/wiegand.c:31) describes a timeout counter, but no statement increments it. `WiegandReader.Valid` keeps `stats.numTimeout == 0`.
- **`card_t.raw` is not the received frame.** The header calls `raw` the unparsed card data (main/wiegand/wiegand.h:20). But `bits_to_card` zeroes `raw` and then writes the two 16-bit halves over it. For a 24-bit frame, `raw` therefore reads back as the 24 data bits moved down by one, without the parity bits (`Decode.Raw24`).

A frame that looks plausible need not pass the check. For example, `0x02008003` fails the odd low-parity check, because bits 0..12 hold two ones (`Decode.Rejected24`). The frame for facility 1 and user 1 is `0x02020002` (`Decode.Example24`).

## Model

| member | source | states |
|---|---|---|
| WiegandFmt.HighMask | main/wiegand/wiegand_fmt.h:37 | the field `high_mask` of `wieg_fmt_24bit` / `wieg_fmt_32bit` (main/wiegand/wiegand_fmt.c:4-27): `0x01FFE000` / `0xFFFE0000`; the 24-bit one covers exactly positions 13..24 (`HighMask24`) |
| WiegandFmt.LowMask | main/wiegand/wiegand_fmt.h:38 | the field `low_mask` of `wieg_fmt_24bit` / `wieg_fmt_32bit` (main/wiegand/wiegand_fmt.c:4-27): `0x00001FFE` / `0x0001FFFE`; the 24-bit one covers exactly positions 1..12 (`LowMask24`) |
| WiegandFmt.FacMask | main/wiegand/wiegand_fmt.h:39 | the field `fac_mask` of `wieg_fmt_24bit` / `wieg_fmt_32bit` (main/wiegand/wiegand_fmt.c:4-27): `0x01FE0000` / `0xFFFE0000`; the 24-bit one covers exactly positions 17..24 (`FacMask24`) |
| WiegandFmt.UidMask | main/wiegand/wiegand_fmt.h:40 | the field `uid_mask` of `wieg_fmt_24bit` / `wieg_fmt_32bit` (main/wiegand/wiegand_fmt.c:4-27): `0x0001FFFE` in both (`SharedUserIdLayout`); it covers exactly positions 1..16 (`UidMask24`) |
| WiegandFmt.TotalBits | main/wiegand/wiegand_fmt.h:41 | the field `total_bits` of `wieg_fmt_24bit` / `wieg_fmt_32bit` (main/wiegand/wiegand_fmt.c:4-27): 26 / 34; only 26 fits the accumulator (`FitsOnly24`, `Fmt32Broken`) |
| WiegandFmt.FacOffset | main/wiegand/wiegand_fmt.h:42 | the field `fac_offset` of `wieg_fmt_24bit` / `wieg_fmt_32bit` (main/wiegand/wiegand_fmt.c:4-27): 17 in both |
| WiegandFmt.UidOffset | main/wiegand/wiegand_fmt.h:43 | the field `uid_offset` of `wieg_fmt_24bit` / `wieg_fmt_32bit` (main/wiegand/wiegand_fmt.c:4-27): 1 in both (`SharedUserIdLayout`) |
| WiegandFmt.HighParityIdx | main/wiegand/wiegand_fmt.h:44 | the field `high_parity_idx` of `wieg_fmt_24bit` / `wieg_fmt_32bit` (main/wiegand/wiegand_fmt.c:4-27): 25 / 33; in the 24-bit format it is the last frame position (`Fmt24Layout`) |
| WiegandFmt.LowParityIdx | main/wiegand/wiegand_fmt.h:45 | the field `low_parity_idx` of `wieg_fmt_24bit` / `wieg_fmt_32bit` (main/wiegand/wiegand_fmt.c:4-27): 0 in both (`SharedUserIdLayout`) |
| WiegandFmt.HighParityBit | main/wiegand/wiegand_fmt.h:32 | the received high parity bit is 0 or 1, and 1 exactly when the frame has bit `high_parity_idx` set |
| WiegandFmt.LowParityBit | main/wiegand/wiegand_fmt.h:33 | the received low parity bit is 0 or 1, and 1 exactly when the frame has bit `low_parity_idx` set |
| WiegandFmt.FitsOnly24 | main/wiegand/wiegand_fmt.c:4-27 | of the two descriptors, exactly the 24-bit one fits a 32-bit accumulator: frame length at most 32, both parity indices inside the frame, both offsets valid shift counts |
| WiegandFmt.HighMask24 | main/wiegand/wiegand_fmt.h:8 | the 24-bit high parity mask covers exactly positions 13..24 |
| WiegandFmt.LowMask24 | main/wiegand/wiegand_fmt.h:9 | the 24-bit low parity mask covers exactly positions 1..12 |
| WiegandFmt.FacMask24 | main/wiegand/wiegand_fmt.h:10-11 | the 24-bit facility mask covers exactly positions 17..24 |
| WiegandFmt.UidMask24 | main/wiegand/wiegand_fmt.h:12-13 | the 24-bit user id mask covers exactly positions 1..16 |
| WiegandFmt.Fmt24Layout | main/wiegand/wiegand_fmt.h:7-15 | the high and low masks are disjoint and together cover bits 1..24; so do the facility and user id masks; the high parity index is the last frame position (`total_bits - 1`) and the low one is 0 |
| WiegandFmt.Fmt32Broken | main/wiegand/wiegand_fmt.h:17-29 | the 32-bit descriptor does not fit the accumulator: 34 bits, high parity index 33, and its facility field yields at most 15 bits |
| WiegandFmt.SharedUserIdLayout | main/wiegand/wiegand_fmt.c:4-27 | both descriptors place the user id at mask `0x0001FFFE`, offset 1, and the low parity bit at index 0 |
| Wiegand.Card.Raw | main/wiegand/wiegand.h:19-25 | `raw`'s high half is the facility code and its low half the user id |
| Decode.Parity | main/wiegand/wiegand.c:251-262 | the loop returns the seed (odd = 1, even = 0) exclusive-or'ed with the parity of the number of set bits among all 32 positions |
| Decode.IsParityGood | main/wiegand/wiegand.c:234-249 | true exactly when the bit at `high_parity_idx` equals the even parity of `bits & high_mask` and the bit at `low_parity_idx` equals the odd parity of `bits & low_mask` |
| Decode.HighMismatch | main/wiegand/wiegand.c:238-241 | a failed high check rejects the frame whatever the low check would say, which justifies the early return |
| Decode.LowMismatch | main/wiegand/wiegand.c:243-246 | a failed low check rejects the frame |
| Decode.BothMatch | main/wiegand/wiegand.c:234-249 | two passing checks accept the frame |
| Decode.ExpectedHigh24 | main/wiegand/wiegand.c:238-240 | in the 24-bit format, the expected high parity bit is the parity of the ones among data bits 13..24 |
| Decode.ExpectedLow24 | main/wiegand/wiegand.c:243-245 | in the 24-bit format, the expected low parity bit is the complemented parity of the ones among data bits 1..12 |
| Decode.HighCheck24 | main/wiegand/wiegand.c:238-241 | in the 24-bit format the high check passes if and only if positions 13..25 hold an even number of ones |
| Decode.LowCheck24 | main/wiegand/wiegand.c:243-246 | in the 24-bit format the low check passes if and only if positions 0..12 hold an odd number of ones |
| Decode.ParityGood24 | main/wiegand/wiegand.c:234-249 | a 24-bit frame is valid if and only if positions 13..25 hold an even count of ones and positions 0..12 an odd count (H10301) |
| Decode.FrameCard24 | main/wiegand/wiegand.c:224-232 | extraction from an assembled 26-bit frame returns its facility code and user id, whatever its parity bits |
| Decode.EncodeGood24 | main/wiegand/wiegand.c:234-249 | a frame built with the expected parity bits passes the check |
| Decode.EncodeCard24 | main/wiegand/wiegand_fmt.h:10-13 | a facility below 256 packed at bit 17 and a user id packed at bit 1 stay below bit 26 and are recovered by extraction |
| Decode.RoundTrip24 | main/wiegand/wiegand_fmt.h:7-15 | round trip: encoding any (facility, user id) gives a 26-bit frame that passes validation and decodes to the same pair |
| Decode.ValidFrameIsEncoding | main/wiegand/wiegand.c:224-249 | converse: every 26-bit frame that passes validation is the encoding of the card it decodes to |
| Decode.BitsToCard | main/wiegand/wiegand.c:224-232 | in 24-bit mode the extracted facility never exceeds `0xFF`, as main/wiegand/wiegand.h:23 promises; `FrameCard24`, `CardData24` and `Raw24` state what it extracts from a frame |
| Decode.Raw24 | main/wiegand/wiegand.c:229-231 | after extraction, `raw` holds the 24 data bits shifted down by one, not the frame |
| Decode.EncodeExample24 | main/wiegand/wiegand_fmt.h:7-15 | facility 1 and user id 1 travel as `0x02020002` |
| Decode.Example24 | main/wiegand/wiegand.c:224-249 | `0x02020002` passes validation and decodes to facility 1, user id 1 |
| Decode.Rejected24 | main/wiegand/wiegand.c:243-246 | `0x02008003` fails the low check |
| Registry.FirstFree | main/wiegand/wiegand.c:134-143 | the slot chosen is free and every lower slot is taken; none is chosen only when all slots are taken |
| Registry.Taken | main/wiegand/wiegand.c:138-141 | a registered slot holds the callback and is occupied; it fires on new cards exactly when registered for `WIEG_EVT_NEWCARD` |
| Registry.Cleared | main/wiegand/wiegand.c:147-154 | deregistration frees exactly the given slot, keeping its event and context; every other slot is unchanged |
| Registry.ClearedIdempotent | main/wiegand/wiegand.c:147-154 | deregistering twice is the same as deregistering once |
| Registry.ClearedReusable | main/wiegand/wiegand.c:125-154 | after a deregistration, the next registration finds a free slot at or below the freed one |
| Registry.RegisterThenDeregister | main/wiegand/wiegand.c:125-154 | registering into the first free slot and deregistering it gives back the same set of free slots |
| Registry.Dispatch | main/wiegand/wiegand.c:189-199 | each call comes from a slot with a callback and the new-card event, with that slot's callback and context, the event `WIEG_EVT_NEWCARD` and the card; calls are in strictly ascending slot order |
| Registry.DispatchComplete | main/wiegand/wiegand.c:189-199 | every slot with a callback set for new cards is called |
| Registry.DispatchSkips | main/wiegand/wiegand.c:191 | a free slot, or one registered for another event, is never called |
| Registry.DispatchOnce | main/wiegand/wiegand.c:189-199 | no slot is called twice for one card |
| Registry.RegisteredReceives | main/wiegand/wiegand.h:30-37 | a callback registered for new cards receives each card with the event and the context it was registered with |
| Registry.DispatchCleared | main/wiegand/wiegand.c:147-154 | after deregistration the slot is no longer called and every other new-card slot still is |
| Assembler.BitValue | main/wiegand/wiegand.c:54-55 | the value queued by the d0 interrupt is 0, the value queued by d1 is 1 |
| Assembler.StartPtr | main/wiegand/wiegand.c:163 | the cursor starts at the last frame position, `total_bits - 1` |
| Assembler.Place | main/wiegand/wiegand.c:174 | `bits` or'ed with `bit << ptr` for a received bit of 0 or 1; `PlaceNeverClears`, `PlaceZero`, `PlaceKeeps` and `PlaceSets` state its effect |
| Assembler.PlaceNeverClears | main/wiegand/wiegand.c:174 | or'ing the received bit in at the cursor never clears a set bit |
| Assembler.PlaceZero | main/wiegand/wiegand.c:174 | placing a 0 bit leaves the accumulator as it was |
| Assembler.ClearBelowAt | main/wiegand/wiegand.c:174 | no set bit at or below the cursor, position by position |
| Assembler.ResetWellFormed | main/wiegand/wiegand.c:208-219 | the reset state (`bits = 0`, cursor at the top) satisfies the between-turns invariant |
| Assembler.PlaceKeeps | main/wiegand/wiegand.c:174 | or'ing a bit in at the cursor leaves every other position unchanged |
| Assembler.PlaceSets | main/wiegand/wiegand.c:174 | at a clear cursor position the placed bit reads back as the received bit |
| Assembler.PlaceBounded | main/wiegand/wiegand.c:174 | a placement inside the frame keeps `bits < 2^total_bits` |
| Assembler.PlaceClear | main/wiegand/wiegand.c:174-213 | after a placement and the decrement, the positions at or below the new cursor are still clear |
| Assembler.PlaceWellFormed | main/wiegand/wiegand.c:171-213 | a bit that does not complete the frame preserves the invariant, with the cursor one lower |
| Assembler.CompletedBounded | main/wiegand/wiegand.c:174-177 | the completing bit lands at position 0 and the completed frame lies below `2^total_bits` |
| Assembler.CursorStep | main/wiegand/wiegand.c:213 | each decrement lowers the cursor's value by exactly one |
| Assembler.FrameLength24 | main/wiegand/wiegand.c:163 | in the 24-bit format the cursor starts at position 25 and `total_bits` counts 26 bits |
| Assembler.FrameCompletes24 | main/wiegand/wiegand.c:171-177 | in the 24-bit format the cursor reaches 0, where the next bit completes the frame, exactly when 25 bits have been received, so a frame completes on its 26th bit |
| Reader.SetupStatusAsWritten | main/wiegand/wiegand.c:88-109 | as written: the setup succeeds exactly when the d0 configuration, the interrupt service, both handlers and the queue succeed, whatever d1's configuration does |
| Reader.SetupAsWrittenIgnoresD1 | main/wiegand/wiegand.c:93-96 | a failing d1 configuration, with every other call succeeding, is reported as success |
| Reader.SetupStatus | main/wiegand/wiegand.c:88-109 | corrected: the setup succeeds exactly when every call does; a pin configuration failure gives `-STATUS_INVAL`, an interrupt failure `-STATUS_NO_RESOURCE` |
| Reader.SetupStatusAgrees | main/wiegand/wiegand.c:88-109 | when d1's configuration succeeds, the corrected setup reports what the source reports |
| Reader.SelectFormatAsWritten | main/wiegand/wiegand.c:70-76 | as written: only `WIEG_32_BIT` is refused with `-STATUS_UNIMPL`; `WIEG_24_BIT` selects the 24-bit descriptor |
| Reader.SelectAsWrittenOutOfRange | main/wiegand/wiegand.c:70-76 | an out-of-range encoding (2) is accepted and selects the 32-bit descriptor, which does not fit the accumulator |
| Reader.SelectFormat | main/wiegand/wiegand.h:39-47 | corrected: only `WIEG_24_BIT` is accepted, every other encoding gives `-STATUS_UNIMPL`, and a selected format always fits the accumulator |
| Reader.SelectFormatAgrees | main/wiegand/wiegand.c:70-76 | on the two named encodings the corrected selection equals the source's |
| Reader.CompletedFrameIsEncoding | main/wiegand/wiegand.c:174-186 | every card a 24-bit reader reports comes from a completed frame that is exactly the encoding of that card |
| Reader.WiegandReader.constructor | main/wiegand/wiegand.c:52 | the statically zeroed context: no format, every slot free, zero statistics, no task |
| Reader.WiegandReader.Init | main/wiegand/wiegand.c:65-123 | follows the corrected `SelectFormat` and `SetupStatus` (see "## Left out"): an unsupported encoding returns `-STATUS_UNIMPL` and changes nothing; otherwise the format is selected, every callback is cleared and the statistics are zeroed; the setup status is returned; on success the task starts with `bits = 0` and the cursor at `total_bits - 1` |
| Reader.WiegandReader.ClearCallbacks | main/wiegand/wiegand.c:78-81 | every slot's callback becomes NULL, with its event and context unchanged |
| Reader.WiegandReader.Register | main/wiegand/wiegand.c:125-145 | `WIEG_EVT_NEWBIT` returns NULL and takes no slot; otherwise (event, cb, ctx) goes into the lowest free slot, whose index is returned; every other slot is unchanged; with all slots taken, NULL is returned and nothing changes |
| Reader.WiegandReader.Deregister | main/wiegand/wiegand.c:147-154 | returns `STATUS_OK` and leaves the table as `Registry.Cleared` describes |
| Reader.WiegandReader.Fire | main/wiegand/wiegand.c:189-199 | the loop makes exactly the calls of `Registry.Dispatch` on the current table |
| Reader.WiegandReader.Complete | main/wiegand/wiegand.c:180-205 | a completed frame adds one swipe; it adds one bad parity and calls nothing when validation fails; otherwise it calls the dispatch for the extracted card |
| Reader.WiegandReader.Discard | main/wiegand/wiegand.c:215-220 | a timeout resets to `bits = 0` and the cursor at the top and keeps the invariant |
| Reader.WiegandReader.Advance | main/wiegand/wiegand.c:174-213 | a non-completing bit lands at the cursor; the cursor drops by one; at most `total_bits - 1` bits of the frame have arrived |
| Reader.WiegandReader.Finish | main/wiegand/wiegand.c:174-213 | the completing bit is the `total_bits`-th of the frame; the frame is handled as in `Complete`, and the state returns to `bits = 0` and the cursor at the top |
| Reader.WiegandReader.Step | main/wiegand/wiegand.c:168-221 | one receive: a timeout discards the partial frame with no counter change; a bit either advances the cursor or completes the frame, which counts a swipe, counts a bad parity if invalid, and otherwise reports the card to every new-card handler in slot order; the invariant holds throughout: `bits < 2^total_bits`, no bit at or below the cursor, `num_bad_parity <= num_swipes`, `num_timeout == 0` |

## Left out

- **The interrupt handler, the queue and task creation** (`gpio_interrupt_handler`, `xQueueCreate`, `xQueueReceive`, `xTaskCreateStatic`). These are concurrency and kernel services. The task's input is modelled as a sequence of `Step` calls with `Bit0`, `Bit1` or `Timeout`. A full queue dropping bits is not modelled.
- **The 20 ms receive timeout.** Time is not modelled; a timeout is an input.
- **Pin configuration.** The driver calls in `wieg_init` appear only through their success or failure (`Reader.DriverResults`).
- **Callback bodies.** Callbacks are opaque function pointers. A call is recorded in the trace returned by `Step`, not run.
- **A second successful `Init` while the task runs.** The source would start a second task. The model restarts the one task's accumulator and cursor instead.
- **Registration racing the bit task.** Once `wieg_init` has started the task (main/wiegand/wiegand.c:112-120), nothing orders `wieg_evt_handler_reg` and `wieg_evt_handler_dereg` against it. Registration stores `event`, `cb` and `ctx` in three separate writes (main/wiegand/wiegand.c:138-140), and dispatch tests `cb` and reads `ctx` separately (main/wiegand/wiegand.c:191-196). A frame completing between the stores can therefore call the new callback with the slot's old context, and a deregistration during dispatch can be seen halfway. The model runs `Register`, `Deregister` and `Step` one after another, each as a whole, and does not capture these interleavings.
- **Out-of-range event values.** `Wiegand.Event` has only `NewCard` and `NewBit`. In C, a `wieg_evt_t` outside the enumeration passes the `NEWBIT` check at main/wiegand/wiegand.c:129, takes a slot, returns a handle and never fires, because of the guard at main/wiegand/wiegand.c:191. The model cannot build such a slot, so the "another event" case of `Registry.DispatchSkips` applies only to tables that registration cannot produce.
- **Handles.** A handle is a pointer into the table; the model uses the slot index. `Deregister` requires an index inside the table, where the source would write through any pointer.
- **Counter overflow.** The statistics are C `int`s; the model uses unbounded naturals and does not model overflow after 2^31 swipes.
- **Frames of the 32-bit descriptor.** `bits_to_card`, `wieg_is_parity_good` and the task are modelled for any descriptor that fits the accumulator, which is only the 24-bit one (`WiegandFmt.FitsOnly24`). Shifts of a 32-bit word by 33 are undefined in C; the model never performs them.
- Reader.WiegandReader.Init: follows the corrected halves of both findings, `SelectFormat` and `SetupStatus`, not the code as written. For an out-of-range `encode` such as 2, main/wiegand/wiegand.c:70-83 selects `wieg_fmt_32bit`, clears the callbacks and zeroes the statistics; `Init` returns `-STATUS_UNIMPL` and changes nothing, because with that descriptor the first bit's shift `bit << 33` (main/wiegand/wiegand.c:163, 174) and the parity getter's `bits >> 33` are undefined in C, and the only caller (main/main.c:72-76) passes one of the two named encodings. When the d1 configuration fails and everything else succeeds, main/wiegand/wiegand.c:93-96 and 122 return `STATUS_OK` and start the task; `Init` returns `-STATUS_INVAL` and leaves the task as it was. `SetupStatusAgrees` and `SelectFormatAgrees` show that the two halves agree on every other input.
- **`bits_to_card`'s output pointer.** The source writes the card through a `card_t *` into the task's local `card`; `Decode.BitsToCard` returns the card as a value instead.
- **`ERROR` logging.** Not modelled.
- **The step split.** `Reader.WiegandReader.Step` is written as three helper methods (`Discard`, `Advance`, `Finish`) rather than one body. Together they perform the statements of one loop turn in the source's order.

## Findings

| source | as written | input that shows it | evidently intended | confidence | as-written member | corrected member |
|---|---|---|---|---|---|---|
| main/wiegand/wiegand.c:70-76 | only `encode == WIEG_32_BIT` is refused; every other value that is not `WIEG_24_BIT` falls to the ternary's else branch and selects `wieg_fmt_32bit` | `encode = 2` | accept only the 24-bit encoding and refuse everything else with `-STATUS_UNIMPL` | low: needs an out-of-range enum value; not executed | Reader.SelectAsWrittenOutOfRange | Reader.SelectFormat |
| main/wiegand/wiegand.c:93-96 | the three d1 configuration calls discard their results, and the d1 check re-tests the d0 result, so a d1 configuration failure is never reported | d0 configuration succeeds, d1 configuration fails, all later calls succeed | report `-STATUS_INVAL` when the d1 configuration fails, as the d1 error message says | medium: not executed | Reader.SetupAsWrittenIgnoresD1 | Reader.SetupStatus |
