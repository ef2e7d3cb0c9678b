/** The idle phase of `src/game/s0_idle.rs`: a dot runs along the spiral,
    blinking with the centre pixel, until both buttons have been pressed.
    The step reads the tracker only through `both_pressed()`, so it takes
    that flag as an input and serves both tracker revisions. */
module S0Idle {
  import opened Common
  import opened Display
  import opened Spiral

  const INIT_CN: i8 := -1

  /** `(*cnt + 1) & 0b1111` on an `i8`. On a two's-complement byte the
      mask is the non-negative remainder modulo 16, also for the wrapped
      sum of 127 + 1; so the counter leaves `INIT_CN` for 0 and then stays
      in 0..15. */
  function NextCnt(cnt: i8): (r: i8)
    ensures 0 <= r < 16
    ensures -1 <= cnt < 15 ==> r == cnt + 1
    ensures cnt == 15 ==> r == 0
  {
    (cnt + 1) % 16
  }

  /** The dot after one idle step: it moves, by one toggling spiral step,
      only on a step entered with the counter at 15. */
  function IdleDot(cnt: i8, bits: bv8): (r: bv8)
    ensures Inv(bits) ==> Inv(r)
    ensures cnt != 15 ==> r == bits
  {
    if cnt != 15 then bits
    else
      assert Inv(bits) ==> Inv(SpiralStep(bits, Toggled)) by {
        if Inv(bits) {
          IdleSpiralKeepsInv(bits);
        }
      }
      SpiralStep(bits, Toggled)
  }

  /** The display effects of one idle step, keyed on the counter it was
      entered with. */
  function IdleEffects(cnt: i8, bits: bv8): (es: seq<Effect>)
    requires Inv(bits)
    ensures |es| <= 2
    ensures cnt in {INIT_CN, 7, 15} ==> |es| > 0 && es[|es| - 1] == ShowPx(PxOf(IdleDot(cnt, bits)))
    ensures cnt in {6, 14} ==> es == [HidePx(PxOf(bits)), ShowPx(CENTER)]
  {
    if cnt == INIT_CN then [ShowPx(PxOf(bits))]
    else if cnt == 6 || cnt == 14 then [HidePx(PxOf(bits)), ShowPx(CENTER)]
    else if cnt == 7 then [HidePx(CENTER), ShowPx(PxOf(bits))]
    else if cnt == 15 then [HidePx(CENTER), ShowPx(PxOf(IdleDot(cnt, bits)))]
    else []
  }

  /** Only steps entered with the counter at -1, 6, 7, 14 or 15 draw,
      and they only show and hide pixels of the matrix. */
  lemma IdleEffectsShape(cnt: i8, bits: bv8)
    requires Inv(bits)
    ensures |IdleEffects(cnt, bits)| > 0 <==> cnt in {INIT_CN, 6, 7, 14, 15}
    ensures forall e | e in IdleEffects(cnt, bits) :: (e.ShowPx? || e.HidePx?) && OnMatrix(e.px)
  {
  }

  /** `clear_idle_animation`: hide the dot and the centre. */
  function ClearEffects(bits: bv8): (es: seq<Effect>)
    requires Pos(bits) < SPIRAL_LEN
    ensures forall e | e in es :: e.HidePx? && OnMatrix(e.px)
    ensures HidePx(PxOf(bits)) in es && HidePx(CENTER) in es
  {
    [HidePx(PxOf(bits)), HidePx(CENTER)]
  }

  /** `n` idle steps from counter `cnt` and dot `bits`. */
  function IdleSteps(cnt: i8, bits: bv8, n: nat): (i8, bv8)
    decreases n
  {
    if n == 0 then (cnt, bits) else IdleSteps(NextCnt(cnt), IdleDot(cnt, bits), n - 1)
  }

  lemma {:induction false} IdleStepsSplit(cnt: i8, bits: bv8, m: nat, n: nat)
    ensures IdleSteps(cnt, bits, m + n) ==
      var p := IdleSteps(cnt, bits, m); IdleSteps(p.0, p.1, n)
    decreases m
  {
    if m > 0 {
      IdleStepsSplit(NextCnt(cnt), IdleDot(cnt, bits), m - 1, n);
    }
  }

  /** Steps entered with the counter below 15 only count. */
  lemma {:induction false} IdleStepsBelowFifteen(cnt: i8, bits: bv8, k: nat)
    requires 0 <= cnt && cnt + k <= 15
    ensures IdleSteps(cnt, bits, k) == (cnt + k, bits)
    decreases k
  {
    if k > 0 {
      IdleStepsBelowFifteen(cnt + 1, bits, k - 1);
    }
  }

  /** Every 16 steps from counter 0, the dot makes exactly one toggling
      spiral step and the counter is back at 0. */
  lemma IdleCycle(bits: bv8)
    ensures IdleSteps(0, bits, 16) == (0, SpiralStep(bits, Toggled))
  {
    IdleStepsBelowFifteen(0, bits, 15);
    IdleStepsSplit(0, bits, 15, 1);
  }

  /** `idle_animation`: draw according to the counter, advance the
      counter, and report (and clear the screen) when both buttons have
      been pressed. `cnt` is the phase's counter; the new one is returned. */
  method IdleAnimation(cnt: i8, dot: DotState, bothPressed: bool, display: DisplayPins)
    returns (next: i8, started: bool)
    requires Inv(dot.bits)
    modifies dot, display
    ensures dot.bits == IdleDot(cnt, old(dot.bits)) && Inv(dot.bits)
    ensures next == NextCnt(cnt)
    ensures started == bothPressed
    ensures display.log == old(display.log) + IdleEffects(cnt, old(dot.bits))
      + (if started then ClearEffects(dot.bits) else [])
  {
    DrawIdle(cnt, dot, display);
    next := NextCnt(cnt);
    if bothPressed {
      display.UndisplayPx(dot.Px());
      display.UndisplayPx(CENTER);
      started := true;
    } else {
      started := false;
    }
  }

  /** The `match *cnt` drawing part of `idle_animation`. */
  method DrawIdle(cnt: i8, dot: DotState, display: DisplayPins)
    requires Inv(dot.bits)
    modifies dot, display
    ensures dot.bits == IdleDot(cnt, old(dot.bits)) && Inv(dot.bits)
    ensures display.log == old(display.log) + IdleEffects(cnt, old(dot.bits))
  {
    if cnt == 15 {
      ghost var log0 := display.log;
      display.UndisplayPx(CENTER);
      DotIdleSpiral(dot);
      var p := dot.Px();
      display.DisplayPx(p);
      assert display.log == log0 + [HidePx(CENTER), ShowPx(p)];
    } else {
      DrawStill(cnt, dot, display);
    }
  }

  /** The arms of the `match` that leave the dot where it is. */
  method DrawStill(cnt: i8, dot: DotState, display: DisplayPins)
    requires Inv(dot.bits) && cnt != 15
    modifies display
    ensures display.log == old(display.log) + IdleEffects(cnt, dot.bits)
  {
    ghost var log0 := display.log;
    ghost var es := IdleEffects(cnt, dot.bits);
    var p := dot.Px();
    if cnt == INIT_CN {
      assert es == [ShowPx(p)];
      display.DisplayPx(p);
    } else if cnt == 6 || cnt == 14 {
      assert es == [HidePx(p), ShowPx(CENTER)];
      display.UndisplayPx(p);
      display.DisplayPx(CENTER);
      assert display.log == log0 + es;
    } else if cnt == 7 {
      assert es == [HidePx(CENTER), ShowPx(p)];
      display.UndisplayPx(CENTER);
      display.DisplayPx(p);
      assert display.log == log0 + es;
    } else {
      assert es == [];
    }
  }

  /** `dot_idle_spiral`: one spiral step whose callback toggles. */
  method DotIdleSpiral(dot: DotState)
    requires Inv(dot.bits)
    modifies dot
    ensures dot.bits == SpiralStep(old(dot.bits), Toggled) && Inv(dot.bits)
  {
    IdleSpiralKeepsInv(dot.bits);
    var _ := dot.Spiral(Toggled);
  }
}
