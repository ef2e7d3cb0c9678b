/** The older button tracker of `src/buttons.rs`. Same state byte as the
    tug-of-war revision, but the polarity of bit 0 is inverted: `last_a`
    holds when bit 0 is CLEAR, so a fresh tracker reports A as last. The
    file defines no `reset`, although `src/game/mod.rs` calls one; the model
    gives it the body of the tug-of-war revision (state := 0). */
module LegacyButtons {
  import opened Common
  import Buttons

  const LAST_BUTTON_MASK: bv8 := 0x01
  const BOTH_AB_MASK: bv8 := 0x02
  const OTHER_BITS: bv8 := 0xFC

  /** `both_pressed`: bit 1 is set. */
  predicate BothPressed(s: bv8) {
    s & BOTH_AB_MASK != 0
  }

  /** `last_a`: bit 0 is clear. */
  predicate LastA(s: bv8) {
    s & LAST_BUTTON_MASK == 0
  }

  /** On the same byte the two revisions agree on `both_pressed` and
      disagree on `last_a`. */
  lemma PolarityInverted(s: bv8)
    ensures BothPressed(s) <==> Buttons.BothPressed(s)
    ensures LastA(s) <==> !Buttons.LastA(s)
  {
  }

  function WithLastA(s: bv8): (r: bv8)
    ensures LastA(r)
    ensures BothPressed(r) == BothPressed(s)
    ensures r & OTHER_BITS == s & OTHER_BITS
  {
    s & !LAST_BUTTON_MASK
  }

  function WithLastB(s: bv8): (r: bv8)
    ensures !LastA(r)
    ensures BothPressed(r) == BothPressed(s)
    ensures r & OTHER_BITS == s & OTHER_BITS
  {
    s | LAST_BUTTON_MASK
  }

  /** `set_both_pressed` is the same bit operation in both revisions; it
      keeps this revision's inverted `last_a` as well. */
  function WithBothPressed(s: bv8): (r: bv8)
    ensures BothPressed(r)
    ensures LastA(r) == LastA(s)
    ensures r & OTHER_BITS == s & OTHER_BITS
  {
    Buttons.WithBothPressed(s)
  }

  /** The setters the rest of the firmware calls on this tracker. */
  datatype Call = SetLastA | SetLastB | SetBothPressed

  function Apply(s: bv8, c: Call): bv8 {
    match c
    case SetLastA => WithLastA(s)
    case SetLastB => WithLastB(s)
    case SetBothPressed => WithBothPressed(s)
  }

  /** The byte after a run of setter calls, first to last. */
  function ApplyAll(s: bv8, calls: seq<Call>): bv8
    decreases |calls|
  {
    if |calls| == 0 then s else Apply(ApplyAll(s, calls[..|calls| - 1]), calls[|calls| - 1])
  }

  /** Which of the last-button setters was called most recently, if any:
      `Some(true)` for `set_last_a`. */
  function LastSetter(calls: seq<Call>): Option<bool>
    decreases |calls|
  {
    if |calls| == 0 then None
    else if calls[|calls| - 1] == SetLastA then Some(true)
    else if calls[|calls| - 1] == SetLastB then Some(false)
    else LastSetter(calls[..|calls| - 1])
  }

  /** `last_a()` reflects whichever of `set_last_a`/`set_last_b` ran last,
      and is untouched by a run that calls neither. */
  lemma {:induction false} LastSetterDecides(s: bv8, calls: seq<Call>)
    ensures LastSetter(calls) == Some(true) ==> LastA(ApplyAll(s, calls))
    ensures LastSetter(calls) == Some(false) ==> !LastA(ApplyAll(s, calls))
    ensures LastSetter(calls) == None ==> LastA(ApplyAll(s, calls)) == LastA(s)
    decreases |calls|
  {
    if |calls| > 0 {
      LastSetterDecides(s, calls[..|calls| - 1]);
    }
  }

  /** `set_both_pressed` is sticky: no method of this file clears bit 1, and
      it ends set iff it was set already or `set_both_pressed` was called. */
  lemma {:induction false} BothPressedSticky(s: bv8, calls: seq<Call>)
    ensures BothPressed(ApplyAll(s, calls)) <==> BothPressed(s) || SetBothPressed in calls
    decreases |calls|
  {
    if |calls| > 0 {
      var init := calls[..|calls| - 1];
      BothPressedSticky(s, init);
      assert calls == init + [calls[|calls| - 1]];
    }
  }

  class ButtonState {
    var state: bv8

    /** `ButtonState::new`: state 0, so `last_a()` is true and
        `both_pressed()` is false. */
    constructor ()
      ensures state == 0 && LastA(state) && !BothPressed(state)
    {
      state := 0;
    }

    predicate IsBothPressed()
      reads this
    {
      BothPressed(state)
    }

    predicate IsLastA()
      reads this
    {
      LastA(state)
    }

    /** The `reset` that `src/game/mod.rs` calls (see the module comment). */
    method Reset()
      modifies this
      ensures state == 0 && LastA(state) && !BothPressed(state)
    {
      state := 0;
    }

    method SetBothPressed()
      modifies this
      ensures state == WithBothPressed(old(state))
    {
      state := state | BOTH_AB_MASK;
    }

    method SetLastA()
      modifies this
      ensures state == WithLastA(old(state))
    {
      state := state & !LAST_BUTTON_MASK;
    }

    method SetLastB()
      modifies this
      ensures state == WithLastB(old(state))
    {
      state := state | LAST_BUTTON_MASK;
    }
  }
}
