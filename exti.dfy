/** External-interrupt triggers (src/exti.rs): the two shared EXTI vectors
    with their slot arrays (`multi_interrupt!`), the install sequence into
    one slot (`install_multi_interrupt_waker!`), the table that assigns each
    GPIO pin a slot, and the trigger future of a pin. */
module Exti {
  import opened Types
  import opened Waker

  /** The two vectors that several EXTI lines share. */
  predicate IsShared(irq: Interrupt) {
    irq == Exti9_5 || irq == Exti15_10
  }

  /** EXTI9_5 serves lines 5 to 9 and EXTI15_10 lines 10 to 15. */
  function SlotCount(irq: Interrupt): nat
    requires IsShared(irq)
  {
    if irq == Exti9_5 then 5 else 6
  }

  datatype Port = PortA | PortB | PortC | PortD | PortE

  /** A GPIO pin: its port and its line number (PA5 is `Pin(PortA, 5)`). */
  datatype Pin = Pin(port: Port, line: nat)

  /** A slot of a shared vector. */
  datatype SlotRef = SlotRef(irq: Interrupt, index: nat)

  /** The slot a pin's trigger future installs its waker into.  Only lines
      5 to 15 have a trigger future; for the others this is `None`. */
  function SlotOf(p: Pin): (r: Option<SlotRef>)
    ensures r.Some? <==> 5 <= p.line <= 15
    ensures r.Some? ==> IsShared(r.value.irq) && r.value.index < SlotCount(r.value.irq)
    ensures r.Some? ==> (r.value.irq == Exti9_5 <==> p.line <= 9)
  {
    if 5 <= p.line <= 9 then Some(SlotRef(Exti9_5, p.line - 5))
    else if 10 <= p.line <= 15 then Some(SlotRef(Exti15_10, p.line - 10))
    else None
  }

  /** Two pins share a slot only if they are on the same line. */
  lemma SlotOfInjective(p: Pin, q: Pin)
    requires SlotOf(p).Some? && SlotOf(p) == SlotOf(q)
    ensures p.line == q.line
  {
  }

  /** The slot depends on the line only, not on the port. */
  lemma SlotOfIgnoresPort(p: Pin, q: Pin)
    requires p.line == q.line
    ensures SlotOf(p) == SlotOf(q)
  {
  }

  /** Every slot of both shared vectors belongs to some line. */
  lemma SlotOfCovers(irq: Interrupt, i: nat)
    requires IsShared(irq) && i < SlotCount(irq)
    ensures exists line :: SlotOf(Pin(PortA, line)) == Some(SlotRef(irq, i))
  {
    var line := if irq == Exti9_5 then i + 5 else i + 10;
    assert SlotOf(Pin(PortA, line)) == Some(SlotRef(irq, i));
  }

  /** A shared vector of `multi_interrupt!`: its `static mut` slot array and NVIC flags. */
  class SharedVector {
    const irq: Interrupt
    const slots: array<Option<WakerId>>
    var masked: bool
    var pending: bool
    var woken: seq<WakerId>

    predicate Valid() {
      IsShared(irq) && slots.Length == SlotCount(irq)
    }

    function View(): VectorState
      reads this, slots
    {
      VectorState(masked, pending, slots[..], woken)
    }

    /** At reset every slot is empty and the NVIC has the vector masked. */
    constructor (irq: Interrupt)
      requires IsShared(irq)
      ensures this.irq == irq && Valid() && fresh(slots)
      ensures forall i :: 0 <= i < slots.Length ==> slots[i] == None
      ensures masked && !pending && woken == []
    {
      this.irq := irq;
      slots := new Option<WakerId>[SlotCount(irq)](_ => None);
      masked, pending, woken := true, false, [];
    }

    /** The store into one slot: the handler is kept out only by the mask. */
    method WriteSlot(i: nat, w: WakerId)
      requires masked && i < slots.Length
      modifies slots
      ensures slots[..] == old(slots[..])[i := Some(w)]
    {
      slots[i] := Some(w);
    }

    /** `install_multi_interrupt_waker!`: mask, write slot `i`, unpend, unmask. */
    method Install(i: nat, w: WakerId)
      requires i < slots.Length
      modifies this, slots
      ensures View() == Installed(old(View()), i, w)
      ensures slots[..] == old(slots[..])[i := Some(w)]
      ensures !masked && !pending && woken == old(woken)
    {
      masked := true;
      WriteSlot(i, w);
      pending := false;
      masked := false;
    }

    /** The generated handler: wake every occupied slot in index order, then
        mask the vector, whether or not any slot was occupied. */
    method Fire()
      requires CanFire(View())
      modifies this
      ensures View() == Fired(SharedSlots, old(View()))
      ensures woken == old(woken) + Occupied(slots[..]) && masked && !pending
    {
      pending := false;
      var k := 0;
      while k < slots.Length
        invariant 0 <= k <= slots.Length
        invariant woken == old(woken) + Occupied(slots[..k])
        invariant !pending
      {
        if slots[k].Some? {
          woken := woken + [slots[k].value];
        }
        assert slots[..k + 1][..k] == slots[..k];
        k := k + 1;
      }
      assert slots[..k] == slots[..] == old(slots[..]);
      masked := true;
    }
  }

  /** The EXTI-facing state of a GPIO input pin. */
  class ExtiPin {
    const id: Pin
    /** AFIO routes the pin to its EXTI line. */
    var interruptSource: bool
    /** The EXTI line is unmasked. */
    var interruptEnabled: bool
    /** The line's bit in the EXTI pending register. */
    var pendingBit: bool

    constructor (id: Pin)
      ensures this.id == id && !interruptSource && !interruptEnabled && !pendingBit
    {
      this.id := id;
      interruptSource, interruptEnabled, pendingBit := false, false, false;
    }
  }

  /** A pin configured to raise EXTI interrupts. */
  class AsyncPin {
    const pin: ExtiPin

    constructor (pin: ExtiPin)
      modifies pin
      ensures this.pin == pin && pin.interruptSource && pin.interruptEnabled
      ensures pin.pendingBit == old(pin.pendingBit)
    {
      this.pin := pin;
      new;
      pin.interruptSource := true;
      pin.interruptEnabled := true;
    }

    /** A future that resolves on the pin's next edge. */
    method Trigger() returns (t: AsyncTrigger)
      ensures fresh(t) && t.pin == pin
    {
      t := new AsyncTrigger(pin);
    }
  }

  class AsyncTrigger {
    const pin: ExtiPin

    constructor (pin: ExtiPin)
      ensures this.pin == pin
    {
      this.pin := pin;
    }

    /** If the pin's pending bit is set, clear it and resolve; otherwise
        install the waker into the pin's slot of its shared vector. */
    method Poll(v: SharedVector, w: WakerId) returns (r: Poll<()>)
      requires SlotOf(pin.id).Some? && v.irq == SlotOf(pin.id).value.irq && v.Valid()
      modifies pin, v, v.slots
      ensures old(pin.pendingBit) ==> r == Ready(()) && !pin.pendingBit && unchanged(v, v.slots)
      ensures old(pin.pendingBit) ==>
        pin.interruptSource == old(pin.interruptSource) && pin.interruptEnabled == old(pin.interruptEnabled)
      ensures !old(pin.pendingBit) ==> r == Pending && unchanged(pin)
      ensures !old(pin.pendingBit) ==>
        v.View() == Installed(old(v.View()), SlotOf(pin.id).value.index, w)
    {
      var slot := SlotOf(pin.id).value;
      if !pin.pendingBit {
        v.Install(slot.index, w);
        r := Pending;
      } else {
        pin.pendingBit := false;
        r := Ready(());
      }
    }
  }
}
