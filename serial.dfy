/** DMA-based serial communication (src/serial.rs): the future that drives
    one transmit transfer, the transmit sink built on it, and the
    circular-receive stream.

    The HAL's DMA calls are abstract: whether a transfer is done and what
    `peek` reports about the circular buffer are parameters of the polls;
    `write` hands a buffer to the channel, which records it in `written`. */
module Serial {
  import opened Types
  import opened Waker

  const PolledAfterCompletion := "polled after completion"
  const SendBeforeReady := "started sending before polled ready"
  const InvalidAfterClose := "invalid state after closing"
  const UnwrapNone := "called `Option::unwrap()` on a `None` value"

  /** `usize::MAX` on the 32-bit Cortex-M3. */
  const UsizeMax: nat := 0xFFFF_FFFF

  // ---------------------------------------------------------------- transmit

  /** The transmit DMA channels of USART1, USART2 and USART3 (`TxDma1..3`). */
  datatype TxChannel = Tx1 | Tx2 | Tx3

  /** The vector of each transmit channel's transfer-complete interrupt. */
  function TxIrq(c: TxChannel): (irq: Interrupt)
    ensures irq == Dma1Channel2 || irq == Dma1Channel4 || irq == Dma1Channel7
  {
    match c
    case Tx1 => Dma1Channel4
    case Tx2 => Dma1Channel7
    case Tx3 => Dma1Channel2
  }

  /** A transmit DMA channel: whether it listens to transfer-complete, and
      every buffer handed to it so far, in order. */
  datatype TxDma = TxDma(channel: TxChannel, listening: bool, written: seq<Buffer>)

  /** A transfer in flight: the buffer it reads from and the channel. */
  datatype Transfer = Transfer(buf: Buffer, tx: TxDma)

  /** `tx.write(buf)`: start sending `buf` on the channel. */
  function Write(tx: TxDma, buf: Buffer): (t: Transfer)
    ensures t.buf == buf && t.tx.written == tx.written + [buf]
    ensures t.tx.channel == tx.channel && t.tx.listening == tx.listening
  {
    Transfer(buf, tx.(written := tx.written + [buf]))
  }

  /** `TransferFuture`: holds the transfer until it completes, then is empty. */
  class TransferFuture {
    var inner: Option<Transfer>

    /** The channel must already listen to transfer-complete, or the poll's
        waker would never be woken. */
    constructor FromListening(transfer: Transfer)
      requires transfer.tx.listening
      ensures inner == Some(transfer)
    {
      inner := Some(transfer);
    }

    /** Poll: panic if already completed; if the hardware reports the
        transfer done, hand back buffer and channel and become empty;
        otherwise install the waker on the channel's vector. */
    method Poll(done: bool, v: SingleVector, w: WakerId) returns (r: Outcome<Poll<(Buffer, TxDma)>>)
      requires inner.Some? ==> v.irq == TxIrq(inner.value.tx.channel)
      modifies this, v
      ensures old(inner).None? ==> r == Panicked(PolledAfterCompletion) && inner == None && unchanged(v)
      ensures old(inner).Some? && done ==>
        && r == Returned(Ready((old(inner).value.buf, old(inner).value.tx)))
        && inner == None && unchanged(v)
      ensures old(inner).Some? && !done ==>
        && r == Returned(Pending) && inner == old(inner)
        && v.View() == Installed(old(v.View()), 0, w)
    {
      if inner.None? {
        return Panicked(PolledAfterCompletion);
      }
      if done {
        var t := inner.value;
        inner := None;
        r := Returned(Ready((t.buf, t.tx)));
      } else {
        v.Install(w);
        r := Returned(Pending);
      }
    }
  }

  /** The sink's state as a value: `Taken` is the empty `Option` that a
      panicking `start_send` leaves behind. */
  datatype SinkView = Taken | ReadyView(buf: Buffer, tx: TxDma) | SendingView(transfer: Option<Transfer>)

  /** `start_send`: only an idle sink accepts an item. */
  function Sent(s: SinkView, item: Buffer): (r: (SinkView, Outcome<()>))
    ensures r.1 == Returned(()) <==> s.ReadyView?
    ensures r.1 == Panicked(SendBeforeReady) <==> s.SendingView?
    ensures s.ReadyView? ==> r.0 == SendingView(Some(Write(s.tx, item)))
    ensures !s.ReadyView? ==> r.0 == Taken
  {
    match s
    case Taken => (Taken, Panicked(UnwrapNone))
    case SendingView(_) => (Taken, Panicked(SendBeforeReady))
    case ReadyView(_, tx) => (SendingView(Some(Write(tx, item))), Returned(()))
  }

  /** `poll_flush` (and so `poll_ready` and `poll_close`) with the hardware's done flag. */
  function Flushed(s: SinkView, done: bool): (r: (SinkView, Outcome<Poll<()>>))
    ensures r.1 == Returned(Pending) <==> FlushInstalls(s, done)
    ensures r.1 == Returned(Ready(())) <==> r.0.ReadyView?
    ensures r.1.Panicked? || r.1 == Returned(Pending) ==> r.0 == s
    ensures s.ReadyView? ==> r == (s, Returned(Ready(())))
    ensures FlushCompletes(s, done) ==> r.0 == ReadyView(s.transfer.value.buf, s.transfer.value.tx)
  {
    match s
    case Taken => (Taken, Panicked(UnwrapNone))
    case ReadyView(_, _) => (s, Returned(Ready(())))
    case SendingView(None) => (s, Panicked(PolledAfterCompletion))
    case SendingView(Some(t)) =>
      if done then (ReadyView(t.buf, t.tx), Returned(Ready(()))) else (s, Returned(Pending))
  }

  /** A flush installs a waker exactly when it finds a transfer still running. */
  predicate FlushInstalls(s: SinkView, done: bool) {
    s.SendingView? && s.transfer.Some? && !done
  }

  /** A flush finds a transfer that the hardware reports done. */
  predicate FlushCompletes(s: SinkView, done: bool) {
    s.SendingView? && s.transfer.Some? && done
  }

  /** One poll of `release`: close, then take buffer and channel out of the idle state. */
  function Released(s: SinkView, done: bool): (r: Outcome<Poll<(Buffer, TxDma)>>)
    ensures r != Panicked(InvalidAfterClose)
    ensures r.Panicked? <==> Flushed(s, done).1.Panicked?
    ensures r == Returned(Pending) <==> FlushInstalls(s, done)
    ensures r.Returned? && r.value.Ready? ==> Flushed(s, done).0 == ReadyView(r.value.value.0, r.value.value.1)
  {
    var (s', o) := Flushed(s, done);
    match o
    case Panicked(m) => Panicked(m)
    case Returned(Pending) => Returned(Pending)
    case Returned(Ready(_)) =>
      if s'.ReadyView? then Returned(Ready((s'.buf, s'.tx))) else Panicked(InvalidAfterClose)
  }

  /** A flush that reports ready always leaves the sink idle, so the
      `unreachable!` of `release` is indeed unreachable. */
  lemma FlushReadyMeansIdle(s: SinkView, done: bool)
    ensures Flushed(s, done).1 == Returned(Ready(())) ==> Flushed(s, done).0.ReadyView?
    ensures Released(s, done) != Panicked(InvalidAfterClose)
  {
  }

  /** Starting a second send before the first was flushed panics. */
  lemma SendTwicePanics(buf: Buffer, tx: TxDma, a: Buffer, b: Buffer)
    ensures Sent(Sent(ReadyView(buf, tx), a).0, b).1 == Panicked(SendBeforeReady)
  {
  }

  /** A sink that `poll_ready` can bring to idle: idle already, or sending
      a transfer. */
  predicate CanSend(s: SinkView) {
    s.ReadyView? || (s.SendingView? && s.transfer.Some?)
  }

  /** `SinkExt::send` repeated: for each item, `poll_ready` (a flush) until the
      sink is idle, `start_send`, then `poll_flush` until the transfer
      completes.  Each flush is represented by its completing poll.  `None`
      if any step panics. */
  function SendAll(s: SinkView, items: seq<Buffer>): (r: Option<SinkView>)
    ensures CanSend(s) ==> r.Some? && CanSend(r.value)
    ensures CanSend(s) && items != [] ==> r.Some? && r.value.ReadyView?
    ensures s.ReadyView? ==> r.Some? && r.value.ReadyView? && r.value.tx.channel == s.tx.channel
    ensures !CanSend(s) && items != [] ==> r == None
    decreases |items|
  {
    if items == [] then Some(s)
    else
      var (s0, o0) := Flushed(s, true);
      var (s1, o1) := Sent(s0, items[0]);
      var (s2, o2) := Flushed(s1, true);
      if o0.Panicked? || o1.Panicked? || o2.Panicked? then None else SendAll(s2, items[1..])
  }

  /** Sending on a sink whose transfer is still in flight first completes that
      transfer (the `poll_ready` step) and then sends as from its buffer and
      channel. */
  lemma SendAllFlushesFirst(t: Transfer, items: seq<Buffer>)
    requires items != []
    ensures SendAll(SendingView(Some(t)), items) == SendAll(ReadyView(t.buf, t.tx), items)
  {
    assert Flushed(SendingView(Some(t)), true).0 == ReadyView(t.buf, t.tx);
  }

  /** Sending N buffers one after another never panics, hands exactly those N
      buffers to the DMA channel in submission order, and leaves the sink
      idle holding the last one. */
  lemma {:induction false} SendAllInOrder(buf: Buffer, tx: TxDma, items: seq<Buffer>)
    ensures SendAll(ReadyView(buf, tx), items)
      == Some(ReadyView(if items == [] then buf else items[|items| - 1], tx.(written := tx.written + items)))
    decreases |items|
  {
    if items != [] {
      var tx' := tx.(written := tx.written + [items[0]]);
      assert Flushed(ReadyView(buf, tx), true) == (ReadyView(buf, tx), Returned(Ready(())));
      assert Flushed(Sent(ReadyView(buf, tx), items[0]).0, true).0 == ReadyView(items[0], tx');
      assert SendAll(ReadyView(buf, tx), items) == SendAll(ReadyView(items[0], tx'), items[1..]);
      SendAllInOrder(items[0], tx', items[1..]);
      assert tx.written + [items[0]] + items[1..] == tx.written + items;
      assert tx'.(written := tx'.written + items[1..]) == tx.(written := tx.written + items);
      var last := if items[1..] == [] then items[0] else items[1..][|items[1..]| - 1];
      assert last == items[|items| - 1];
      assert SendAll(ReadyView(items[0], tx'), items[1..]) == Some(ReadyView(last, tx'.(written := tx'.written + items[1..])));
    } else {
      assert tx.written + items == tx.written;
    }
  }

  /** `TxSinkState`: `Ready { buf, tx }` or `Sending { transfer }`. */
  datatype SinkState = TxReady(buf: Buffer, tx: TxDma) | TxSending(transfer: TransferFuture)

  /** `TxSink`: an idle buffer and channel, or a transfer in flight. */
  class TxSink {
    const channel: TxChannel
    var state: Option<SinkState>

    /** The transfer future the sink owns while sending. */
    function Held(): set<object>
      reads this
    {
      if state.Some? && state.value.TxSending? then {state.value.transfer} else {}
    }

    function View(): SinkView
      reads this, Held()
    {
      match state
      case None => Taken
      case Some(TxReady(buf, tx)) => ReadyView(buf, tx)
      case Some(TxSending(t)) => SendingView(t.inner)
    }

    /** Every buffer and transfer of the sink is on the sink's own channel,
        and that channel listens to transfer-complete. */
    predicate Valid()
      reads this, Held()
    {
      match View()
      case Taken => true
      case ReadyView(_, tx) => tx.channel == channel && tx.listening
      case SendingView(t) => t.Some? ==> t.value.tx.channel == channel && t.value.tx.listening
    }

    /** `new`: listen to transfer-complete and start idle. */
    constructor (buf: Buffer, tx: TxDma)
      ensures channel == tx.channel && Valid()
      ensures View() == ReadyView(buf, tx.(listening := true))
    {
      channel := tx.channel;
      state := Some(TxReady(buf, tx.(listening := true)));
    }

    /** `start_send`: take the state; when idle, overwrite the buffer with the
        item and start a transfer over it. */
    method StartSend(item: Buffer) returns (r: Outcome<()>)
      requires Valid()
      modifies this
      ensures Valid() && fresh(Held())
      ensures (View(), r) == Sent(old(View()), item)
    {
      var current := state;
      state := None;
      if current.None? {
        r := Panicked(UnwrapNone);
      } else if current.value.TxReady? {
        var transfer := new TransferFuture.FromListening(Write(current.value.tx, item));
        state := Some(TxSending(transfer));
        r := Returned(());
      } else {
        r := Panicked(SendBeforeReady);
      }
    }

    /** `poll_flush`: idle is ready; while sending, poll the transfer and go
        back to idle with its buffer and channel once it completes. */
    method PollFlush(done: bool, v: SingleVector, w: WakerId) returns (r: Outcome<Poll<()>>)
      requires Valid() && v.irq == TxIrq(channel)
      modifies this, v, Held()
      ensures Valid()
      ensures (View(), r) == Flushed(old(View()), done)
      ensures FlushInstalls(old(View()), done) ==> v.View() == Installed(old(v.View()), 0, w)
      ensures !FlushInstalls(old(View()), done) ==> unchanged(v)
    {
      match state
      case None =>
        r := Panicked(UnwrapNone);
      case Some(TxReady(_, _)) =>
        r := Returned(Ready(()));
      case Some(TxSending(transfer)) =>
        var p := transfer.Poll(done, v, w);
        match p
        case Panicked(m) =>
          r := Panicked(m);
        case Returned(Pending) =>
          r := Returned(Pending);
        case Returned(Ready((buf, tx))) =>
          state := Some(TxReady(buf, tx));
          r := Returned(Ready(()));
    }

    /** `poll_ready` is `poll_flush`. */
    method PollReady(done: bool, v: SingleVector, w: WakerId) returns (r: Outcome<Poll<()>>)
      requires Valid() && v.irq == TxIrq(channel)
      modifies this, v, Held()
      ensures Valid()
      ensures (View(), r) == Flushed(old(View()), done)
      ensures FlushInstalls(old(View()), done) ==> v.View() == Installed(old(v.View()), 0, w)
      ensures !FlushInstalls(old(View()), done) ==> unchanged(v)
    {
      r := PollFlush(done, v, w);
    }

    /** `poll_close` is `poll_flush`: there is no separate shutdown. */
    method PollClose(done: bool, v: SingleVector, w: WakerId) returns (r: Outcome<Poll<()>>)
      requires Valid() && v.irq == TxIrq(channel)
      modifies this, v, Held()
      ensures Valid()
      ensures (View(), r) == Flushed(old(View()), done)
      ensures FlushInstalls(old(View()), done) ==> v.View() == Installed(old(v.View()), 0, w)
      ensures !FlushInstalls(old(View()), done) ==> unchanged(v)
    {
      r := PollFlush(done, v, w);
    }

    /** One poll of `release`: close, then hand back buffer and channel. */
    method Release(done: bool, v: SingleVector, w: WakerId) returns (r: Outcome<Poll<(Buffer, TxDma)>>)
      requires Valid() && v.irq == TxIrq(channel)
      modifies this, v, Held()
      ensures Valid()
      ensures View() == Flushed(old(View()), done).0
      ensures r == Released(old(View()), done)
      ensures r != Panicked(InvalidAfterClose)
      ensures FlushInstalls(old(View()), done) ==> v.View() == Installed(old(v.View()), 0, w)
      ensures !FlushInstalls(old(View()), done) ==> unchanged(v)
    {
      ghost var before := View();
      FlushReadyMeansIdle(before, done);
      var closed := PollClose(done, v, w);
      match closed
      case Panicked(m) =>
        r := Panicked(m);
      case Returned(Pending) =>
        r := Returned(Pending);
      case Returned(Ready(_)) =>
        if state.Some? && state.value.TxReady? {
          r := Returned(Ready((state.value.buf, state.value.tx)));
        } else {
          r := Panicked(InvalidAfterClose);
        }
    }
  }

  /** A transmit sink's whole life: `new` over a buffer and a transmit
      channel, one `start_send`, then `release` polled once with the transfer
      done.  The send succeeds, `release` hands back the item's buffer and the
      channel, now listening and having been handed the item, and `new` on
      them starts an idle sink on the same channel. */
  method SendAndRelease(buf: Buffer, tx: TxDma, item: Buffer, v: SingleVector, w: WakerId)
    returns (started: Outcome<()>, released: Outcome<Poll<(Buffer, TxDma)>>, again: TxSink)
    requires v.irq == TxIrq(tx.channel)
    modifies v
    ensures started == Returned(())
    ensures released == Returned(Ready((item, tx.(listening := true, written := tx.written + [item]))))
    ensures fresh(again) && again.channel == tx.channel && again.Valid()
    ensures again.View() == ReadyView(item, tx.(listening := true, written := tx.written + [item]))
  {
    var sink := new TxSink(buf, tx);
    started := sink.StartSend(item);
    released := sink.Release(true, v, w);
    var (b, t) := if released.Returned? && released.value.Ready? then released.value.value else (buf, tx);
    again := new TxSink(b, t);
  }

  // ----------------------------------------------------------------- receive

  /** The receive DMA channels of USART1, USART2 and USART3 (`RxDma1..3`). */
  datatype RxChannel = Rx1 | Rx2 | Rx3

  /** The vector of each receive channel's half- and full-transfer interrupts. */
  function RxIrq(c: RxChannel): (irq: Interrupt)
    ensures irq == Dma1Channel3 || irq == Dma1Channel5 || irq == Dma1Channel6
  {
    match c
    case Rx1 => Dma1Channel5
    case Rx2 => Dma1Channel6
    case Rx3 => Dma1Channel3
  }

  /** A receive DMA channel and the events it listens to. */
  datatype RxDma = RxDma(channel: RxChannel, listenHalf: bool, listenComplete: bool)

  datatype Half = First | Second

  function Other(h: Half): Half {
    if h == First then Second else First
  }

  /** Each transmit channel and each receive channel has a vector of its own,
      so no two futures share a single-slot waker cell. */
  lemma ChannelVectorsDistinct(a: TxChannel, b: TxChannel, c: RxChannel, d: RxChannel)
    ensures TxIrq(a) == TxIrq(b) ==> a == b
    ensures RxIrq(c) == RxIrq(d) ==> c == d
    ensures TxIrq(a) != RxIrq(c)
  {
  }

  datatype DmaError = Overrun

  /** What `CircBuffer::peek` reports: the readable half and a copy of its
      contents, or a transfer error. */
  datatype Peek = Peeked(data: Buffer, half: Half) | PeekFailed(error: DmaError)

  /** The two halves a circular transfer fills, and its channel. */
  datatype CircBuffer = CircBuffer(first: Buffer, second: Buffer, rx: RxDma)

  type Item = Result<Buffer, DmaError>

  /** One `poll_next` from marker `last`: the new marker and the poll's result.
      The stream never ends; the marker moves exactly when a data item is
      delivered, that item is a copy of the half peeked, and the marker
      becomes that half; an unchanged half is Pending; an error is passed on
      as an item. */
  function Next(last: Half, p: Peek): (s: (Half, Poll<Option<Item>>))
    ensures s.1 != Ready(None)
    ensures s.0 != last <==> s.1.Ready? && s.1.value.Some? && s.1.value.value.Ok?
    ensures s.1.Ready? && s.1.value.Some? && s.1.value.value.Ok? ==> p == Peeked(s.1.value.value.value, s.0)
    ensures s.1 == Pending <==> p.Peeked? && p.half == last
    ensures p.PeekFailed? ==> s == (last, Ready(Some(Err(p.error))))
    ensures p.Peeked? && p.half != last ==> s == (p.half, Ready(Some(Ok(p.data))))
  {
    match p
    case PeekFailed(e) => (last, Ready(Some(Err(e))))
    case Peeked(data, half) =>
      if half == last then (last, Pending) else (half, Ready(Some(Ok(data))))
  }

  /** The results of polling the stream once per peek, from marker `last`. */
  function Outputs(last: Half, ps: seq<Peek>): (out: seq<Poll<Option<Item>>>)
    ensures |out| == |ps|
    decreases |ps|
  {
    if ps == [] then [] else
      var (next, o) := Next(last, ps[0]);
      [o] + Outputs(next, ps[1..])
  }

  /** The marker after polling once per peek, from marker `last`. */
  function Marker(last: Half, ps: seq<Peek>): Half
    decreases |ps|
  {
    if ps == [] then last else Marker(Next(last, ps[0]).0, ps[1..])
  }

  /** One more poll at the end of a run adds exactly that poll's result, and
      moves the marker as that poll does. */
  lemma {:induction false} OutputsSnoc(last: Half, ps: seq<Peek>, p: Peek)
    ensures Outputs(last, ps + [p]) == Outputs(last, ps) + [Next(Marker(last, ps), p).1]
    ensures Marker(last, ps + [p]) == Next(Marker(last, ps), p).0
    decreases |ps|
  {
    if ps != [] {
      var next := Next(last, ps[0]).0;
      assert (ps + [p])[0] == ps[0];
      assert (ps + [p])[1..] == ps[1..] + [p];
      OutputsSnoc(next, ps[1..], p);
    } else {
      assert Outputs(Next(last, p).0, []) == [];
    }
  }

  /** The halves of the data items the stream delivers, in order: at most one
      per poll. */
  function Delivered(last: Half, ps: seq<Peek>): (d: seq<Half>)
    ensures |d| <= |ps|
    decreases |ps|
  {
    if ps == [] then [] else
      var (next, _) := Next(last, ps[0]);
      (if next != last then [next] else []) + Delivered(next, ps[1..])
  }

  /** Whatever the hardware reports, no poll ever yields the end of the stream. */
  lemma {:induction false} NeverEnds(last: Half, ps: seq<Peek>)
    ensures forall i :: 0 <= i < |ps| ==> Outputs(last, ps)[i] != Ready(None)
    decreases |ps|
  {
    if ps != [] {
      var (next, _) := Next(last, ps[0]);
      NeverEnds(next, ps[1..]);
      assert forall i :: 1 <= i < |ps| ==> Outputs(last, ps)[i] == Outputs(next, ps[1..])[i - 1];
    }
  }

  /** The half of the `i`-th item in a strictly alternating run that starts
      after marker `last`. */
  function Alternating(last: Half, i: nat): Half {
    if i % 2 == 0 then Other(last) else last
  }

  /** Delivered halves alternate, starting with the half other than the
      marker: from the initial marker `Second` the first item comes from
      `First`. */
  lemma {:induction false} DeliveredAlternate(last: Half, ps: seq<Peek>)
    ensures forall i :: 0 <= i < |Delivered(last, ps)| ==> Delivered(last, ps)[i] == Alternating(last, i)
    decreases |ps|
  {
    if ps != [] {
      var next := Next(last, ps[0]).0;
      var rest := Delivered(next, ps[1..]);
      DeliveredAlternate(next, ps[1..]);
      if next != last {
        assert Delivered(last, ps) == [next] + rest;
        forall i | 1 <= i <= |rest|
          ensures ([next] + rest)[i] == Alternating(last, i)
        {
          assert ([next] + rest)[i] == rest[i - 1] == Alternating(next, i - 1);
        }
      } else {
        assert Delivered(last, ps) == rest;
      }
    }
  }

  /** No half is delivered twice in a row. */
  lemma DeliveredNoRepeat(last: Half, ps: seq<Peek>)
    ensures forall i :: 0 <= i < |Delivered(last, ps)| - 1 ==>
      Delivered(last, ps)[i] != Delivered(last, ps)[i + 1]
  {
    DeliveredAlternate(last, ps);
    forall i | 0 <= i < |Delivered(last, ps)| - 1
      ensures Delivered(last, ps)[i] != Delivered(last, ps)[i + 1]
    {
      assert Alternating(last, i) != Alternating(last, i + 1);
    }
  }

  /** `RxStream`: a running circular transfer and the last half delivered. */
  class RxStream {
    var circ: CircBuffer
    var lastReadHalf: Half

    /** `new`: listen to half- and full-transfer, start the circular
        transfer, and mark `Second` as read so that `First` comes first. */
    constructor (first: Buffer, second: Buffer, rx: RxDma)
      ensures circ == CircBuffer(first, second, rx.(listenHalf := true, listenComplete := true))
      ensures lastReadHalf == Second
    {
      circ := CircBuffer(first, second, rx.(listenHalf := true, listenComplete := true));
      lastReadHalf := Second;
    }

    /** `poll_next`: deliver a new half, wait for one, or pass an error on. */
    method PollNext(peek: Peek, v: SingleVector, w: WakerId) returns (r: Poll<Option<Item>>)
      requires v.irq == RxIrq(circ.rx.channel)
      modifies this, v
      ensures (lastReadHalf, r) == Next(old(lastReadHalf), peek) && circ == old(circ)
      ensures r == Pending ==> v.View() == Installed(old(v.View()), 0, w)
      ensures r != Pending ==> unchanged(v)
    {
      var last := lastReadHalf;
      var res: Result<Option<(Buffer, Half)>, DmaError> :=
        match peek
        case PeekFailed(e) => Err(e)
        case Peeked(data, half) => if half == last then Ok(None) else Ok(Some((data, half)));
      match res
      case Ok(Some((buf, half))) =>
        lastReadHalf := half;
        r := Ready(Some(Ok(buf)));
      case Ok(None) =>
        v.Install(w);
        r := Pending;
      case Err(err) =>
        r := Ready(Some(Err(err)));
    }

    /** `release`: stop the transfer and hand back both halves and the channel. */
    method Release() returns (first: Buffer, second: Buffer, rx: RxDma)
      ensures CircBuffer(first, second, rx) == circ
    {
      first, second, rx := circ.first, circ.second, circ.rx;
    }

    /** `size_hint`: at least `usize::MAX` items, no upper bound. */
    function SizeHint(): (h: (nat, Option<nat>))
      ensures h.0 == UsizeMax && h.1 == None
    {
      (UsizeMax, None)
    }

    /** `is_terminated`: the stream is never finished. */
    function IsTerminated(): (b: bool)
      ensures !b
    {
      false
    }
  }

  /** A stream's whole life: `new` over two halves and a receive channel, one
      `poll_next` per peek, then `release`.  The polls yield `Outputs` from
      the initial marker `Second`; `release` hands back the same buffers
      and channel given to `new`, now listening to both events; and
      `new` on them starts a fresh stream from marker `Second` again. */
  method ReceiveAndRelease(first: Buffer, second: Buffer, rx: RxDma, peeks: seq<Peek>, v: SingleVector, w: WakerId)
    returns (outs: seq<Poll<Option<Item>>>, released: CircBuffer, again: RxStream)
    requires v.irq == RxIrq(rx.channel)
    modifies v
    ensures outs == Outputs(Second, peeks)
    ensures released == CircBuffer(first, second, rx.(listenHalf := true, listenComplete := true))
    ensures fresh(again) && again.lastReadHalf == Second && again.circ == released
  {
    var stream := new RxStream(first, second, rx);
    outs := [];
    var k := 0;
    while k < |peeks|
      invariant 0 <= k <= |peeks|
      invariant stream.circ == CircBuffer(first, second, rx.(listenHalf := true, listenComplete := true))
      invariant stream.lastReadHalf == Marker(Second, peeks[..k])
      invariant outs == Outputs(Second, peeks[..k])
    {
      var o := stream.PollNext(peeks[k], v, w);
      OutputsSnoc(Second, peeks[..k], peeks[k]);
      assert peeks[..k + 1] == peeks[..k] + [peeks[k]];
      outs := outs + [o];
      k := k + 1;
    }
    assert peeks[..k] == peeks;
    var f, s, r := stream.Release();
    released := CircBuffer(f, s, r);
    again := new RxStream(f, s, r);
  }
}
