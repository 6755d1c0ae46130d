/** The waker-slot protocol of `waker_interrupt!` (src/lib.rs): a vector's
    slot is written inside a mask-based critical section (mask, write,
    unpend, unmask) and the vector's handler wakes what the slot holds and
    then masks the vector again.

    The NVIC is modelled by two booleans per vector, and the handler runs as
    one atomic step that the hardware takes only while the vector is unmasked
    and pending.  Waking a task is recorded by appending its waker to the
    vector's `woken` log. */
module Waker {
  import opened Types

  /** The interrupt vectors this crate installs handlers for. */
  datatype Interrupt =
    | Tim2 | Tim3
    | Dma1Channel2 | Dma1Channel3 | Dma1Channel4
    | Dma1Channel5 | Dma1Channel6 | Dma1Channel7
    | Exti9_5 | Exti15_10

  /** What the handler does with the slots of its vector: the single slot of
      `waker_interrupt!` or the slot array of `multi_interrupt!`. */
  datatype Dispatch = SingleSlot | SharedSlots

  /** A vector's NVIC flags, its slots and the wakes delivered so far. */
  datatype VectorState = VectorState(
    masked: bool,
    pending: bool,
    slots: seq<Option<WakerId>>,
    woken: seq<WakerId>)

  /** A single-slot vector owns exactly one slot. */
  predicate Shaped(d: Dispatch, s: VectorState) {
    d.SingleSlot? ==> |s.slots| == 1
  }

  /** The wakers held by the occupied slots, in slot-index order. */
  function Occupied(slots: seq<Option<WakerId>>): (ws: seq<WakerId>)
    ensures |ws| <= |slots|
  {
    if slots == [] then []
    else
      var last := slots[|slots| - 1];
      Occupied(slots[..|slots| - 1]) + (if last.Some? then [last.value] else [])
  }

  /** A waker is woken by a shared dispatch exactly when some slot holds it. */
  lemma {:induction false} OccupiedMembers(slots: seq<Option<WakerId>>, w: WakerId)
    ensures w in Occupied(slots) <==> exists i :: 0 <= i < |slots| && slots[i] == Some(w)
  {
    if slots != [] {
      var n := |slots| - 1;
      var front := slots[..n];
      OccupiedMembers(front, w);
      if w in Occupied(slots) {
        if w in Occupied(front) {
          var i :| 0 <= i < |front| && front[i] == Some(w);
          assert slots[i] == Some(w);
        } else {
          assert slots[n] == Some(w);
        }
      }
      if exists i :: 0 <= i < |slots| && slots[i] == Some(w) {
        var i :| 0 <= i < |slots| && slots[i] == Some(w);
        if i < n {
          assert front[i] == Some(w);
        }
      }
    }
  }

  /** The indices of the slots that hold waker `w`. */
  function SlotsHolding(slots: seq<Option<WakerId>>, w: WakerId): set<nat> {
    set i: nat | i < |slots| && slots[i] == Some(w)
  }

  /** Adding one slot at the back adds its index to the set of slots that
      hold `w` exactly when it holds `w`. */
  lemma SlotsHoldingSnoc(slots: seq<Option<WakerId>>, w: WakerId)
    requires slots != []
    ensures var n := |slots| - 1;
      SlotsHolding(slots, w) == SlotsHolding(slots[..n], w) + (if slots[n] == Some(w) then {n} else {})
  {
    var n := |slots| - 1;
    forall i: nat | i < n
      ensures slots[..n][i] == slots[i]
    {
    }
  }

  /** The wakes of one more slot at the back, counted for `w`. */
  lemma OccupiedSnocCount(slots: seq<Option<WakerId>>, w: WakerId)
    requires slots != []
    ensures var n := |slots| - 1;
      multiset(Occupied(slots))[w] == multiset(Occupied(slots[..n]))[w] + (if slots[n] == Some(w) then 1 else 0)
  {
    var n := |slots| - 1;
    var tail := if slots[n].Some? then [slots[n].value] else [];
    assert multiset(Occupied(slots)) == multiset(Occupied(slots[..n])) + multiset(tail);
  }

  /** A shared dispatch wakes each waker exactly as many times as there are
      slots holding it: one wake per occupied slot. */
  lemma {:induction false} OccupiedCount(slots: seq<Option<WakerId>>, w: WakerId)
    ensures multiset(Occupied(slots))[w] == |SlotsHolding(slots, w)|
  {
    if slots == [] {
      assert SlotsHolding(slots, w) == {};
    } else {
      var n := |slots| - 1;
      OccupiedCount(slots[..n], w);
      OccupiedSnocCount(slots, w);
      SlotsHoldingSnoc(slots, w);
      assert n !in SlotsHolding(slots[..n], w);
    }
  }

  /** The install critical section on slot `i`: mask, store the waker, clear
      the pending flag, unmask. */
  function Installed(s: VectorState, i: nat, w: WakerId): (r: VectorState)
    requires i < |s.slots|
    ensures |r.slots| == |s.slots| && r.slots[i] == Some(w)
    ensures forall j :: 0 <= j < |s.slots| && j != i ==> r.slots[j] == s.slots[j]
    ensures !r.masked && !r.pending && r.woken == s.woken
  {
    VectorState(false, false, s.slots[i := Some(w)], s.woken)
  }

  /** The hardware takes the handler only while the vector is unmasked and pending. */
  predicate CanFire(s: VectorState) {
    !s.masked && s.pending
  }

  /** One run of the handler; the NVIC clears the pending flag on entry.
      Either dispatch wakes the occupied slots once, in slot order, and keeps
      every slot; it masks the vector unless a single slot was empty. */
  function Fired(d: Dispatch, s: VectorState): (r: VectorState)
    requires Shaped(d, s)
    ensures r.slots == s.slots && !r.pending
    ensures r.woken == s.woken + Occupied(s.slots)
    ensures r.masked == (s.masked || d.SharedSlots? || Occupied(s.slots) != [])
  {
    var t := s.(pending := false);
    match d
    case SingleSlot =>
      OccupiedSingle(t.slots);
      if t.slots[0].Some? then t.(woken := t.woken + [t.slots[0].value], masked := true) else t
    case SharedSlots =>
      t.(woken := t.woken + Occupied(t.slots), masked := true)
  }

  /** What the environment does between two installs: the peripheral latches
      the pending flag (a new event, or a flag that is still set re-asserting
      it), or the hardware takes the handler if it can. */
  datatype EnvEvent = Pend | Fire

  function EnvStep(d: Dispatch, s: VectorState, e: EnvEvent): (r: VectorState)
    requires Shaped(d, s)
    ensures r.slots == s.slots
  {
    match e
    case Pend => s.(pending := true)
    case Fire => if CanFire(s) then Fired(d, s) else s
  }

  /** The handler never clears a slot: any run of the environment leaves the
      slots as they were. */
  function RunEnv(d: Dispatch, s: VectorState, es: seq<EnvEvent>): (r: VectorState)
    requires Shaped(d, s)
    ensures r.slots == s.slots
    decreases |es|
  {
    if es == [] then s else RunEnv(d, EnvStep(d, s, es[0]), es[1..])
  }

  /** Within one install cycle the vector either has delivered nothing and is
      still unmasked (pending if an event was latched), or has delivered the
      occupied slots once and is masked. */
  ghost predicate InCycle(t: VectorState, base: seq<WakerId>, pended: bool) {
    || (t.woken == base && !t.masked && (pended ==> t.pending))
    || (t.woken == base + Occupied(t.slots) && t.masked)
  }

  /** A single slot delivers its waker exactly when it is occupied. */
  lemma OccupiedSingle(slots: seq<Option<WakerId>>)
    requires |slots| == 1
    ensures Occupied(slots) == if slots[0].Some? then [slots[0].value] else []
  {
    assert slots[..0] == [];
  }

  /** Each environment step keeps the cycle invariant. */
  lemma CycleStep(d: Dispatch, t: VectorState, base: seq<WakerId>, pended: bool, e: EnvEvent)
    requires Shaped(d, t) && Occupied(t.slots) != [] && InCycle(t, base, pended)
    ensures InCycle(EnvStep(d, t, e), base, pended || e == Pend)
  {
    if e == Fire && CanFire(t) && d.SingleSlot? {
      OccupiedSingle(t.slots);
    }
  }

  lemma {:induction false} CycleHolds(d: Dispatch, t: VectorState, base: seq<WakerId>, pended: bool, es: seq<EnvEvent>)
    requires Shaped(d, t) && Occupied(t.slots) != [] && InCycle(t, base, pended)
    ensures InCycle(RunEnv(d, t, es), base, pended || Pend in es)
    decreases |es|
  {
    if es != [] {
      CycleStep(d, t, base, pended, es[0]);
      CycleHolds(d, EnvStep(d, t, es[0]), base, pended || es[0] == Pend, es[1..]);
      assert es == [es[0]] + es[1..];
    }
  }

  /** One install cycle: `install` of waker `w` into slot `i`, followed by any
      run of the environment.  The slot keeps `w`; the vector delivers its
      occupied slots (which include `w`) at most once and is masked after it
      has; and once an event has been latched, the wake has either been
      delivered or is still about to be (unmasked and pending). */
  lemma InstallCycle(d: Dispatch, s: VectorState, i: nat, w: WakerId, es: seq<EnvEvent>)
    requires Shaped(d, s) && i < |s.slots| && (d.SingleSlot? ==> i == 0)
    ensures var r := RunEnv(d, Installed(s, i, w), es);
      && r.slots[i] == Some(w)
      && w in Occupied(r.slots)
      && (r.woken == s.woken || (r.woken == s.woken + Occupied(r.slots) && r.masked))
      && (Pend in es ==> r.woken == s.woken + Occupied(r.slots) || CanFire(r))
  {
    var u := Installed(s, i, w);
    OccupiedMembers(u.slots, w);
    CycleHolds(d, u, s.woken, false, es);
  }

  /** The `static mut WAKER` cell and NVIC flags of one `waker_interrupt!` vector. */
  class SingleVector {
    const irq: Interrupt
    var masked: bool
    var pending: bool
    var slot: Option<WakerId>
    var woken: seq<WakerId>

    function View(): VectorState
      reads this
    {
      VectorState(masked, pending, [slot], woken)
    }

    /** At reset the slot is empty and the NVIC has the vector masked. */
    constructor (irq: Interrupt)
      ensures this.irq == irq && masked && !pending && slot == None && woken == []
    {
      this.irq := irq;
      masked, pending, slot, woken := true, false, None, [];
    }

    /** The store into the slot: the handler is kept out only by the mask. */
    method WriteSlot(w: WakerId)
      requires masked
      modifies this
      ensures slot == Some(w) && masked && pending == old(pending) && woken == old(woken)
    {
      slot := Some(w);
    }

    /** The install sequence of `waker_interrupt!`: mask, write, unpend, unmask. */
    method Install(w: WakerId)
      modifies this
      ensures View() == Installed(old(View()), 0, w)
      ensures slot == Some(w) && !masked && !pending && woken == old(woken)
    {
      masked := true;
      WriteSlot(w);
      pending := false;
      masked := false;
    }

    /** The generated handler: wake the slot's waker, if any, and then mask. */
    method Fire()
      requires CanFire(View())
      modifies this
      ensures View() == Fired(SingleSlot, old(View()))
      ensures slot == old(slot) && !pending
      ensures old(slot).Some? ==> masked && woken == old(woken) + [old(slot).value]
      ensures old(slot).None? ==> masked == old(masked) && woken == old(woken)
    {
      pending := false;
      if slot.Some? {
        woken := woken + [slot.value];
        masked := true;
      }
    }
  }
}
