/** Fixed-width integers of the firmware, Option, and the two hardware
    event latches (RTC tick, GPIOTE channels) that handlers clear. */
module Common {

  /** Rust's `u8`, `i8` and `u16`, as ranges of the unbounded integers. */
  type u8 = x: int | 0 <= x < 0x100
  type i8 = x: int | -0x80 <= x < 0x80
  type u16 = x: int | 0 <= x < 0x1_0000

  datatype Option<T> = None | Some(value: T)

  /** `u16::wrapping_add(1)`; also how a release build (no overflow checks)
      executes `*cnt += 1` on a `u16`. */
  function WrappingIncU16(x: u16): (r: u16)
    ensures x < 0xFFFF ==> r == x + 1
    ensures x == 0xFFFF ==> r == 0
  {
    (x + 1) % 0x1_0000
  }

  /** The RTC peripheral, reduced to its latched TICK event. */
  class Rtc {
    var tickEvent: bool

    constructor ()
      ensures !tickEvent
    {
      tickEvent := false;
    }

    /** `rtc.reset_event(RtcInterrupt::Tick)` */
    method ResetTick()
      modifies this
      ensures !tickEvent
    {
      tickEvent := false;
    }
  }

  /** The GPIOTE peripheral, reduced to the latched events of channel 0
      (button A, high-to-low) and channel 1 (button B, high-to-low).
      The hardware sets them; handlers clear them. */
  class Gpiote {
    var event0: bool
    var event1: bool

    constructor ()
      ensures !event0 && !event1
    {
      event0, event1 := false, false;
    }

    /** `gpiote.reset_events()`: clears every channel. */
    method ResetEvents()
      modifies this
      ensures !event0 && !event1
    {
      event0, event1 := false, false;
    }
  }
}
