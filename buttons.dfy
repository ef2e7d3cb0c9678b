/** The button tracker of `tug-of-war/src/buttons.rs`: a state byte whose
    bit 0 records which button fired last (set = A) and whose bit 1 records
    that both buttons were down at once. The tracker owns the GPIOTE
    peripheral; the pin levels it reads are inputs of `HandleInterrupt`. */
module Buttons {
  import opened Common

  const LAST_BUTTON_MASK: bv8 := 0x01
  const BOTH_AB_MASK: bv8 := 0x02
  /** The bits neither flag uses. */
  const OTHER_BITS: bv8 := 0xFC

  /** `both_pressed`: bit 1 is set. */
  predicate BothPressed(s: bv8) {
    s & BOTH_AB_MASK != 0
  }

  /** `last_a`: bit 0 is set. */
  predicate LastA(s: bv8) {
    s & LAST_BUTTON_MASK != 0
  }

  /** The byte after `set_last_a`. */
  function WithLastA(s: bv8): (r: bv8)
    ensures LastA(r)
    ensures BothPressed(r) == BothPressed(s)
    ensures r & OTHER_BITS == s & OTHER_BITS
  {
    s | LAST_BUTTON_MASK
  }

  /** The byte after `set_last_b`. */
  function WithLastB(s: bv8): (r: bv8)
    ensures !LastA(r)
    ensures BothPressed(r) == BothPressed(s)
    ensures r & OTHER_BITS == s & OTHER_BITS
  {
    s & !LAST_BUTTON_MASK
  }

  /** The byte after `set_both_pressed`. */
  function WithBothPressed(s: bv8): (r: bv8)
    ensures BothPressed(r)
    ensures LastA(r) == LastA(s)
    ensures r & OTHER_BITS == s & OTHER_BITS
  {
    s | BOTH_AB_MASK
  }

  /** The byte after one `handle_interrupt`, given the latched events of
      channel 0 (A) and channel 1 (B) and the pin levels read. Channel 1 is
      only looked at when channel 0 has not fired. */
  function AfterInterrupt(s: bv8, event0: bool, event1: bool, aLow: bool, bLow: bool): (r: bv8)
    ensures event0 ==> LastA(r) && (BothPressed(r) <==> BothPressed(s) || bLow)
    ensures !event0 && event1 ==> !LastA(r) && (BothPressed(r) <==> BothPressed(s) || aLow)
    ensures !event0 && !event1 ==> r == s
    ensures r & OTHER_BITS == s & OTHER_BITS
  {
    if event0 then
      var s1 := WithLastA(s);
      if bLow then WithBothPressed(s1) else s1
    else if event1 then
      var s1 := WithLastB(s);
      if aLow then WithBothPressed(s1) else s1
    else
      s
  }

  /** One GPIOTE interrupt as the hardware presents it. */
  datatype Irq = Irq(event0: bool, event1: bool, aLow: bool, bLow: bool)

  /** The byte after a run of interrupts with no `reset` in between. */
  function AfterInterrupts(s: bv8, irqs: seq<Irq>): bv8
    decreases |irqs|
  {
    if |irqs| == 0 then s
    else
      var i := irqs[|irqs| - 1];
      AfterInterrupt(AfterInterrupts(s, irqs[..|irqs| - 1]), i.event0, i.event1, i.aLow, i.bLow)
  }

  /** `set_both_pressed` is sticky: once bit 1 is set, no interrupt clears
      it; only `reset` does. */
  lemma {:induction false} BothPressedSticky(s: bv8, irqs: seq<Irq>)
    requires BothPressed(s)
    ensures BothPressed(AfterInterrupts(s, irqs))
    decreases |irqs|
  {
    if |irqs| > 0 {
      BothPressedSticky(s, irqs[..|irqs| - 1]);
    }
  }

  /** Bit 1 ends set exactly when it was set before, or some interrupt saw
      the other button low while recording an edge. */
  lemma {:induction false} BothPressedExactly(s: bv8, irqs: seq<Irq>)
    ensures BothPressed(AfterInterrupts(s, irqs)) <==>
      BothPressed(s) ||
      exists k :: 0 <= k < |irqs| && (if irqs[k].event0 then irqs[k].bLow else irqs[k].event1 && irqs[k].aLow)
    decreases |irqs|
  {
    if |irqs| > 0 {
      var init := irqs[..|irqs| - 1];
      BothPressedExactly(s, init);
      forall k | 0 <= k < |init|
        ensures init[k] == irqs[k]
      {
      }
    }
  }

  /** `ButtonState`: the state byte, updated in place, and the GPIOTE
      peripheral it owns. */
  class ButtonState {
    var state: bv8
    const gpiote: Gpiote

    /** `ButtonState::new`: state 0, so neither flag is set. */
    constructor (gpiote: Gpiote)
      ensures this.gpiote == gpiote
      ensures state == 0 && !BothPressed(state) && !LastA(state)
    {
      this.gpiote := gpiote;
      state := 0;
    }

    predicate IsBothPressed()
      reads this
    {
      BothPressed(state)
    }

    predicate IsLastA()
      reads this
    {
      LastA(state)
    }

    /** `reset`: clears both flags. */
    method Reset()
      modifies this
      ensures state == 0 && !BothPressed(state) && !LastA(state)
    {
      state := 0;
    }

    method SetLastA()
      modifies this
      ensures state == WithLastA(old(state))
    {
      state := state | LAST_BUTTON_MASK;
    }

    method SetLastB()
      modifies this
      ensures state == WithLastB(old(state))
    {
      state := state & !LAST_BUTTON_MASK;
    }

    method SetBothPressed()
      modifies this
      ensures state == WithBothPressed(old(state))
    {
      state := state | BOTH_AB_MASK;
    }

    /** `handle_interrupt`: records the edge of the first channel that has
        fired and clears that channel's event. `aLow` and `bLow` are the
        levels `is_low` reads from the button pins. */
    method HandleInterrupt(aLow: bool, bLow: bool)
      modifies this, gpiote
      ensures state == AfterInterrupt(old(state), old(gpiote.event0), old(gpiote.event1), aLow, bLow)
      ensures old(gpiote.event0) ==> !gpiote.event0 && gpiote.event1 == old(gpiote.event1)
      ensures !old(gpiote.event0) ==> !gpiote.event0 && !gpiote.event1
    {
      if gpiote.event0 {
        gpiote.event0 := false;
        SetLastA();
        if bLow {
          SetBothPressed();
        }
      } else if gpiote.event1 {
        gpiote.event1 := false;
        SetLastB();
        if aLow {
          SetBothPressed();
        }
      }
    }
  }
}
