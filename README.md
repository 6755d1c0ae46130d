# async-stm32f1xx: waker slots, interrupt dispatch and peripheral futures

This project models the core of `async-stm32f1xx`. That crate turns STM32F1 hardware events into
Rust futures for a single-core, cooperative executor. It covers timer delays, DMA serial
transmit and receive, and external pin edges.

A suspended future hands its waker to an interrupt vector. The interrupt handler wakes that
waker and masks the vector again. The model has two layers:

- **Waker slots and dispatch** (`waker.dfy`, `exti.dfy`).
  - A vector is a pair of NVIC flags (`masked`, `pending`), its waker slots, and a log `woken`
    of the wakes it has delivered.
  - `SingleVector` is the single `static mut WAKER` cell that `waker_interrupt!` declares.
  - `SharedVector` is one of the slot arrays of `multi_interrupt!`: 5 slots for EXTI9_5, 6 for
    EXTI15_10.
  - Each class has an `Install` method that runs the same steps as the source: mask, write
    the slot, unpend, unmask. The slot write is a separate method, `WriteSlot`, whose
    precondition is `masked`. So the write can only happen inside the critical section.
  - `Fire` is the generated handler, run as one atomic step. The hardware takes it only while
    the vector is unmasked and pending.
  - The pure functions `Installed`, `Fired`, `EnvStep` and `RunEnv` describe the same steps
    on values, and `InstallCycle` proves what one install cycle guarantees.
- **Peripheral futures** (`serial.dfy`, `timer.dfy`, `exti.dfy`).
  - `TransferFuture`, `TxSink`, `RxStream`, `AsyncTimer`/`Delay` and `AsyncTrigger` are
    classes whose poll methods change their own state and install into the vector they are
    wired to.
  - HAL calls (`is_done`, `peek`, `wait`) are modelled by a parameter that says what the
    hardware reported.
  - A panic is an `Outcome.Panicked(message)` result carrying the source's message.
  - The transmit sink and the receive stream also have value views (`SinkView`, the
    `lastReadHalf` marker). Pure step functions (`Sent`, `Flushed`, `Released`, `Next`) act on
    these views, and the trace lemmas are proved about them.

Environment assumptions of the dispatch model:

- The NVIC clears a vector's pending flag when it enters the handler.
- An environment step `Pend` latches the pending flag. It stands both for a new event and for
  a peripheral flag that is still set and asserts pending again after `install` unpended it.
- With these, `InstallCycle` shows two things. First, a cycle delivers its occupied slots at
  most once and is masked afterwards. Second, once `Pend` has happened, the wake has either
  been delivered or is still due, because the vector is unmasked and pending.

Behaviour of the crate worth knowing when reading the model:

- The handlers never clear a slot (`as_ref`), so a stale waker stays installed after its
  future resolves. `RunEnv` proves that no handler run changes the slots.
- `Delay` keeps no completed state. Polling it after it resolved consults the timer again and
  does not panic. Of the crate's hand-written futures, only `TransferFuture` panics when polled
  again.
- `install` unpends the vector. An event that lands between a future's flag check and the mask
  is therefore discarded by `install`. It is delivered only if the peripheral flag asserts
  pending again, which is the `Pend` assumption above.
- `src/lib.rs` declares only the `serial` and `timer` modules, so `src/exti.rs` is not built as
  shipped. It is modelled as written.

## Model

| member | source | states |
|---|---|---|
| `Waker.Installed` | src/lib.rs:57-64 | after an install the chosen slot holds exactly the new waker (any previous one is overwritten), every other slot is unchanged, the vector is unmasked and not pending, and no wake is delivered |
| `Waker.SingleVector.constructor` | src/lib.rs:45 | the slot starts empty (and the vector masked, as at reset) |
| `Waker.SingleVector.WriteSlot` | src/lib.rs:59-60 | the slot is written only while the vector is masked, and nothing else changes |
| `Waker.SingleVector.Install` | src/lib.rs:57-64 | mask, write, unpend, unmask: the slot holds the new waker, the vector ends unmasked and unpended, nothing is woken |
| `Waker.SingleVector.Fire` | src/lib.rs:47-55 | with an occupied slot the handler appends that waker to the wake log once and masks the vector; with an empty slot it wakes nothing and leaves the mask as it was; it never clears the slot |
| `Waker.EnvStep` | src/lib.rs:50-54 | neither a latched event nor a handler run changes any slot |
| `Waker.RunEnv` | src/exti.rs:22-24 | no sequence of events and handler runs clears a slot, so a stale waker stays installed after its future resolved |
| `Waker.Occupied` | src/exti.rs:22-24 | the shared handler delivers no more wakes than it has slots |
| `Waker.OccupiedCount` | src/exti.rs:22-24 | the shared handler wakes each waker exactly as many times as there are slots holding it, so one wake per occupied slot |
| `Waker.Fired` | src/lib.rs:47-55 | a handler run (single slot here, the slot array of src/exti.rs:18-28 alike) clears pending, keeps every slot, appends the occupied slots' wakers once in slot order, and masks the vector unless its single slot was empty; both `Fire` methods are proved equal to it |
| `Waker.OccupiedMembers` | src/exti.rs:22-24 | the shared handler wakes a waker if and only if some slot holds it |
| `Waker.OccupiedSingle` | src/lib.rs:50-51 | a single-slot vector delivers its waker exactly when the slot is occupied |
| `Waker.CycleStep` | src/lib.rs:47-64 | each latched event or handler run keeps the install-cycle invariant of `CycleHolds` |
| `Waker.CycleHolds` | src/lib.rs:47-64 | inside an install cycle the vector has either delivered nothing and is still unmasked (and pending once an event was latched), or has delivered its occupied slots once and is masked |
| `Waker.InstallCycle` | src/lib.rs:47-64 | after an install the slot keeps the waker; the cycle wakes its slots at most once and is masked afterwards, and the wakes include the installed waker; once an event is latched, the wake has been delivered or the vector is still unmasked and pending |
| `Exti.SharedVector.constructor` | src/exti.rs:12-33 | a shared vector starts with all slots empty: 5 for EXTI9_5, 6 for EXTI15_10 |
| `Exti.SharedVector.WriteSlot` | src/exti.rs:40-43 | the indexed slot is written only while the vector is masked, and no other slot changes |
| `Exti.SharedVector.Install` | src/exti.rs:35-49 | only the indexed slot changes, and it holds the new waker; the vector ends unmasked and unpended |
| `Exti.SharedVector.Fire` | src/exti.rs:18-28 | the handler wakes every occupied slot in index order and then masks the vector, even when no slot is occupied |
| `Exti.SlotOf` | src/exti.rs:120-202 | pins have a slot exactly on lines 5 to 15; lines 5-9 map to EXTI9_5 and 10-15 to EXTI15_10, always within the slot count |
| `Exti.SlotOfInjective` | src/exti.rs:120-202 | two pins share a slot only if they are on the same line |
| `Exti.SlotOfIgnoresPort` | src/exti.rs:120-202 | the slot depends only on the line, not on the port A to E |
| `Exti.SlotOfCovers` | src/exti.rs:120-202 | every slot of both shared vectors belongs to some line |
| `Exti.AsyncPin.constructor` | src/exti.rs:65-70 | the pin becomes an interrupt source with its EXTI line enabled |
| `Exti.AsyncPin.Trigger` | src/exti.rs:72-74 | the trigger future borrows the pin |
| `Exti.AsyncTrigger.Poll` | src/exti.rs:106-113 | if the pin's pending bit is set, it is cleared and the poll is Ready with the vector untouched; otherwise the waker is installed in the pin's slot and the poll is Pending with the pin untouched |
| `Serial.Write` | src/serial.rs:122 | `tx.write(buf)` appends the buffer to what the channel was handed, on the same channel and keeping its listen flag |
| `Serial.TxIrq` | src/serial.rs:58-62 | the transfer-complete vectors of the transmit channels of USART1-3 are DMA1 channels 4, 7 and 2 |
| `Serial.RxIrq` | src/serial.rs:267-271 | the vectors of the receive channels of USART1-3 are DMA1 channels 5, 6 and 3 |
| `Serial.ChannelVectorsDistinct` | src/serial.rs:58-62 | every transmit and receive channel has its own vector, so no two of them share a waker cell |
| `Serial.TransferFuture.FromListening` | src/serial.rs:26-31 | the channel of the transfer must listen to transfer-complete; the future starts holding the transfer |
| `Serial.TransferFuture.Poll` | src/serial.rs:44-52 | an empty future panics with "polled after completion"; when the transfer is done it returns the buffer and channel and becomes empty, so any later poll panics; otherwise it is Pending, keeps the transfer and installs the waker |
| `Serial.Sent` | src/serial.rs:117-128 | `start_send` succeeds exactly on an idle sink and leaves it sending a transfer of the item on its channel; on a sending sink it panics with "started sending before polled ready"; a panic leaves the state taken |
| `Serial.Flushed` | src/serial.rs:130-141 | a flush is Pending exactly when the transfer is still running, and then nothing changes; it is Ready exactly when it leaves the sink idle; idle stays idle; a completed transfer gives back its buffer and channel; a panic changes nothing |
| `Serial.Released` | src/serial.rs:94-101 | one poll of `release` panics exactly when the close panics, never with "invalid state after closing"; it is Pending exactly when the transfer is still running; Ready returns the buffer and channel the close left idle |
| `Serial.SendAll` | src/serial.rs:113-141 | repeated `send` (poll_ready, start_send, poll_flush) from an idle sink or one with a transfer in flight never panics and, for a non-empty list, ends idle, on the same channel when it started idle; from a taken sink, or one whose transfer future is already empty, the first send fails |
| `Serial.SendAllFlushesFirst` | src/serial.rs:113-115 | sending on a sink with a transfer in flight first completes it and then behaves as sending from its buffer and channel |
| `Serial.FlushReadyMeansIdle` | src/serial.rs:94-100 | a flush that reports Ready always leaves the sink idle, so `release` never reaches its "invalid state after closing" branch |
| `Serial.SendTwicePanics` | src/serial.rs:117-128 | a second `start_send` before a flush panics with "started sending before polled ready" |
| `Serial.SendAllInOrder` | src/serial.rs:117-141 | sending N buffers, each flushed to completion, never panics, hands exactly those N buffers to the DMA channel in submission order, and leaves the sink idle |
| `Serial.TxSink.constructor` | src/serial.rs:158-164 | a new sink is idle with the given buffer and a channel listening to transfer-complete |
| `Serial.TxSink.StartSend` | src/serial.rs:117-128 | when idle, the buffer is overwritten with the item and a transfer over it starts (sink now Sending); while sending it panics |
| `Serial.TxSink.PollFlush` | src/serial.rs:130-141 | idle: Ready and unchanged; sending with the transfer pending: Pending, still sending, waker installed; transfer done: Ready and back to idle with the transfer's buffer and channel |
| `Serial.TxSink.PollReady` | src/serial.rs:113-115 | the same transition and result as `poll_flush` |
| `Serial.TxSink.PollClose` | src/serial.rs:143-145 | the same transition and result as `poll_flush` |
| `Serial.TxSink.Release` | src/serial.rs:94-101 | closes first, moving the sink as `Flushed` does and keeping it valid, so it can be polled again; the result follows `Released`: once the close is Ready it returns the buffer and channel of the idle state and never panics with "invalid state after closing" |
| `Serial.Next` | src/serial.rs:226-247 | a poll never yields end-of-stream; a peeked half equal to the marker is Pending with the marker kept; a different half yields a copy of its data and becomes the marker; an error is yielded as an item with the marker kept |
| `Serial.Outputs` | src/serial.rs:226-247 | polling once per hardware report yields exactly one result per report |
| `Serial.Delivered` | src/serial.rs:226-247 | the halves of the delivered data items, in order: at most one per poll |
| `Serial.OutputsSnoc` | src/serial.rs:226-247 | one more poll appends exactly that poll's result, taken from the marker the earlier polls left |
| `Serial.NeverEnds` | src/serial.rs:236-251 | over any sequence of hardware reports no poll yields end-of-stream, matching the unbounded `size_hint` |
| `Serial.DeliveredAlternate` | src/serial.rs:210-243 | delivered halves alternate, starting with the half other than the marker: from the initial `Second` the first item is from `First`, the next from `Second`, and so on |
| `Serial.DeliveredNoRepeat` | src/serial.rs:227-243 | no half is delivered twice in a row |
| `Serial.RxStream.constructor` | src/serial.rs:202-212 | the channel listens to half- and full-transfer, the circular transfer starts, and the marker is `Second` |
| `Serial.RxStream.PollNext` | src/serial.rs:226-247 | the marker and result follow `Next`; the waker is installed exactly when the poll is Pending; the circular buffer is untouched |
| `Serial.SendAndRelease` | src/serial.rs:94-101 | `new`, one `start_send`, then `release` with the transfer done: the send succeeds, `release` returns the item's buffer and the listening channel that was handed the item, and `new` on them is an idle sink on the same channel |
| `Serial.RxStream.SizeHint` | src/serial.rs:249-251 | at least `usize::MAX` items and no upper bound |
| `Serial.RxStream.IsTerminated` | src/serial.rs:259-261 | the stream never reports itself terminated |
| `Serial.RxStream.Release` | src/serial.rs:215-217 | hands back the two buffers and the channel of the circular transfer |
| `Serial.ReceiveAndRelease` | src/serial.rs:202-217 | `new`, any number of polls, then `release`: the polls yield `Outputs` from marker `Second`, `release` returns the same buffers and channel given to `new`, with both events listened to, and `new` on them starts again from marker `Second` |
| `Timer.TimerIrq` | src/timer.rs:112 | TIM2 and TIM3 each wake on their own update vector |
| `Timer.AsyncTimer.FromTimer` | src/timer.rs:84-89 | starts a 1 Hz count-down and listens to its update event |
| `Timer.AsyncTimer.DelayFor` | src/timer.rs:45-51 | restarts the count-down with the given count before returning a `Delay` on this timer |
| `Timer.AsyncTimer.Release` | src/timer.rs:79-81 | hands back the timer peripheral |
| `Timer.DelayThenRelease` | src/timer.rs:79-89 | `From<Timer>`, any number of `delay_for`, then `release` returns the peripheral given, and once it is wrapped in a `Timer` again (`Timer::tim2`, not modelled), `From<Timer>` on it starts the same 1 Hz listening count-down |
| `Timer.Delay.Poll` | src/timer.rs:95-106 | Ready exactly when `wait()` is `Ok`, with the vector untouched; on `WouldBlock` the waker is installed on the timer's vector and the poll is Pending; `Other` cannot occur |

## Left out

- The `compiler_fence` calls (src/lib.rs:58, 62; src/exti.rs:41, 45) are not modelled. The handler is one atomic step, so memory ordering does not arise.
- Real NVIC preemption timing is not modelled. A handler run is an environment step that may happen only while the vector is unmasked and pending.
- HAL internals are not modelled: `Transfer::is_done`/`wait`, `CircBuffer::peek`/`stop`, `CountDown::start`/`wait`, `check_interrupt`, `make_interrupt_source`, `enable_interrupt` and `listen`. Each one is a parameter, a flag or a recorded field.
- Wakers are opaque numbers. Waking one only appends it to the vector's log, and the executor is not modelled.
- The `AsRef`/`AsMut` accessors are left out because they are plumbing. The examples are left out because they are setup code and demonstrations.
- Frequency conversions (`hz()`) and the timer's period arithmetic are left out. `hz` records the value the count-down was started with.
- Serial.TxSink.StartSend: the buffer is a value, not a `&mut` reference. Aliasing between the sink's buffer and the in-flight transfer is not modelled.
- Serial.TxSink.Release: this models one poll of the `async fn`, not the whole future. Repeated polls are repeated calls, and after a Ready poll the model's sink stays idle where the source has consumed it.
- Serial.SendAll: each flush is represented by its final, completing poll. Earlier Pending polls leave the sink unchanged, as `Flushed` states, so they are not spelled out.
- Serial.TransferFuture.Poll: the three macro instances share one body. The wiring of each DMA channel to its vector (`TxIrq`, `RxIrq`, `TimerIrq`) is a precondition.
- Timer.Delay.Poll: `Error::Other` carries `Void`, which has no values. Dafny cannot declare an empty type here, so the poll has the precondition `wait != Err(Other)` in place of `void::unreachable`.
- Serial.RxStream: the two halves stand for the buffers given to `new`. The DMA's writes into them are not modelled, and the data `peek` reports is not tied to them, so `release` hands back the buffers as given rather than their received contents.
- `RxStream::size_hint` and `is_terminated` are plain constants (`(usize::MAX, None)` and `false`). `NeverEnds` states the matching property of `poll_next`.
- The EXTI pending bit is per line. The model keeps it on the pin object whose line it is.
