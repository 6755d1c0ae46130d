/** Timer delays (src/timer.rs): an `AsyncTimer` owns a count-down timer
    and hands out `Delay` futures that resolve when the count-down expires.

    The HAL's `wait()` is a parameter of the poll.  Its error type is
    `nb::Error<Void>`, and `Void` has no values, so `Other` can never be
    returned; the poll's precondition states that guarantee of the type. */
module Timer {
  import opened Types
  import opened Waker

  /** The timer peripherals the crate supports.  A `Tim` stands both for the
      raw peripheral that `release` hands back and for the HAL `Timer` built
      over it that `From<Timer>` takes; wrapping one into the other
      (`Timer::tim2` with clocks and bus) is HAL setup and not modelled. */
  datatype Tim = TIM2 | TIM3

  /** The vector of each timer's update interrupt. */
  function TimerIrq(t: Tim): (irq: Interrupt)
    ensures irq == Tim2 || irq == Tim3
    ensures irq == Tim2 <==> t == TIM2
  {
    match t
    case TIM2 => Tim2
    case TIM3 => Tim3
  }

  /** A count-down timer: its peripheral, the frequency it was last started
      with, and whether its update event raises an interrupt. */
  datatype CountDownTimer = CountDownTimer(tim: Tim, hz: nat, listening: bool)

  datatype NbError = WouldBlock | Other

  /** What `CountDown::wait` returns. */
  type WaitResult = Result<(), NbError>

  class AsyncTimer {
    var timer: CountDownTimer

    /** `From<Timer>`: start a 1 Hz count-down and listen to its update event. */
    constructor FromTimer(tim: Tim)
      ensures timer == CountDownTimer(tim, 1, true)
    {
      timer := CountDownTimer(tim, 1, true);
    }

    /** `delay_for`: restart the count-down with `count`, then borrow the
        timer into a `Delay`. */
    method DelayFor(count: nat) returns (d: Delay)
      modifies this
      ensures timer == old(timer).(hz := count)
      ensures fresh(d) && d.timer == this
    {
      timer := timer.(hz := count);
      d := new Delay(this);
    }

    /** `release`: give back the timer peripheral. */
    method Release() returns (tim: Tim)
      ensures tim == timer.tim
    {
      tim := timer.tim;
    }
  }

  /** A timer's whole life: `From<Timer>`, any number of `delay_for` calls,
      then `release`.  The peripheral handed back is the one given, and once
      it is wrapped in a `Timer` again, `From<Timer>` on it starts the same
      1 Hz listening count-down. */
  method DelayThenRelease(tim: Tim, counts: seq<nat>) returns (released: Tim, again: AsyncTimer)
    ensures released == tim
    ensures fresh(again) && again.timer == CountDownTimer(tim, 1, true)
  {
    var t := new AsyncTimer.FromTimer(tim);
    var k := 0;
    while k < |counts|
      invariant 0 <= k <= |counts|
      invariant t.timer.tim == tim && t.timer.listening
      invariant k > 0 ==> t.timer.hz == counts[k - 1]
    {
      var _ := t.DelayFor(counts[k]);
      k := k + 1;
    }
    released := t.Release();
    again := new AsyncTimer.FromTimer(released);
  }

  /** `Delay`: a borrow of the timer.  It keeps no state of its own, so it has
      no completed state and may be polled again after it resolved. */
  class Delay {
    const timer: AsyncTimer

    constructor (timer: AsyncTimer)
      ensures this.timer == timer
    {
      this.timer := timer;
    }

    /** Resolve when `wait()` reports the count-down expired; otherwise
        install the waker on the timer's vector. */
    method Poll(wait: WaitResult, v: SingleVector, w: WakerId) returns (r: Poll<()>)
      requires wait != Err(Other)
      requires v.irq == TimerIrq(timer.timer.tim)
      modifies v
      ensures r == Ready(()) <==> wait.Ok?
      ensures r == Pending <==> wait == Err(WouldBlock)
      ensures wait.Ok? ==> unchanged(v)
      ensures wait == Err(WouldBlock) ==> v.View() == Installed(old(v.View()), 0, w)
    {
      match wait
      case Ok(ok) =>
        r := Ready(ok);
        assert ok == ();
      case Err(WouldBlock) =>
        v.Install(w);
        r := Pending;
    }
  }
}
