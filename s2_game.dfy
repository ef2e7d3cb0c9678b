/** The playing phase of `src/game/s2_game.rs`. Every 16 ticks the dot
    takes one spiral step in the direction of the last button pressed
    (`last_a` makes it run counter-clockwise, towards index 0); reaching an
    endpoint declares a winner. The step reads the tracker only through
    `last_a()`, so it takes that flag as an input. */
module S2Game {
  import opened Common
  import opened Display
  import opened Spiral
  import opened S0Idle

  const INIT_CNT: i8 := -1

  /** `Players`, with `*winner as u8` as `BWins`. */
  datatype Players = A | B

  function BWins(w: Players): (b: nat)
    ensures b <= 1 && (b == 1 <==> w == B)
  {
    match w
    case A => 0
    case B => 1
  }

  /** The byte after `update_dot_motion`: toggled when its direction and
      `last_a` agree, so that afterwards the dot runs clockwise exactly
      when B was the last button. */
  function MotionBits(bits: bv8, lastA: bool): (r: bv8)
    ensures Clockwise(r) == !lastA
    ensures Pos(r) == Pos(bits)
  {
    if Clockwise(bits) == lastA then Toggled(bits) else bits
  }

  /** The callback of `dot_game_spiral`: it only reads the dot. */
  function Untouched(bits: bv8): (r: bv8)
    ensures r == bits
  {
    bits
  }

  /** The winner of one step: on a step entered with the counter at 15,
      A when the dot is at index 0 and B when it is at index 48. */
  function GameWinner(cnt: i8, bits: bv8, lastA: bool): (w: Option<Players>)
    ensures w == Some(A) <==> cnt == 15 && Pos(bits) == LEFT
    ensures w == Some(B) <==> cnt == 15 && Pos(bits) == RIGHT
    ensures w.None? <==> cnt != 15 || !AtEnd(bits)
  {
    if cnt != 15 then None
    else
      var m := MotionBits(bits, lastA);
      if !AtEnd(m) then None
      else if Pos(m) == LEFT then Some(A)
      else Some(B)
  }

  /** The dot after one step. While no winner is declared it stays on the
      path. On a winner step it moves off the endpoint: the game drops it. */
  function GameDot(cnt: i8, bits: bv8, lastA: bool): (r: bv8)
    ensures cnt != 15 ==> r == bits
    ensures Pos(bits) <= RIGHT && GameWinner(cnt, bits, lastA).None? ==> Pos(r) <= RIGHT
    ensures cnt == 15 && Pos(bits) <= RIGHT && GameWinner(cnt, bits, lastA).None? ==>
      Clockwise(r) == !lastA && Pos(r) == if lastA then Pos(bits) - 1 else Pos(bits) + 1
  {
    if cnt != 15 then bits
    else
      var m := MotionBits(bits, lastA);
      assert 0 < Pos(m) < RIGHT ==> SpiralStep(m, Untouched) == Advanced(m) by {
        if 0 < Pos(m) < RIGHT {
          InnerStepStaysOnPath(m, Untouched);
        }
      }
      SpiralStep(m, Untouched)
  }

  /** The counter after one step: as in the idle phase, except that a
      winner step leaves it as it was. */
  function GameCnt(cnt: i8, bits: bv8, lastA: bool): (r: i8)
    ensures GameWinner(cnt, bits, lastA).Some? ==> r == cnt
    ensures GameWinner(cnt, bits, lastA).None? ==> r == NextCnt(cnt)
  {
    if GameWinner(cnt, bits, lastA).Some? then cnt else NextCnt(cnt)
  }

  /** The display effects of one step. On a winner step the centre is
      hidden and the dot is not shown again. */
  function GameEffects(cnt: i8, bits: bv8, lastA: bool): (es: seq<Effect>)
    requires Pos(bits) <= RIGHT
    ensures GameWinner(cnt, bits, lastA).Some? ==> es == [HidePx(CENTER)]
    ensures GameWinner(cnt, bits, lastA).None? && cnt in {INIT_CNT, 7, 15} ==>
      |es| > 0 && es[|es| - 1] == ShowPx(PxOf(GameDot(cnt, bits, lastA)))
  {
    if cnt == INIT_CNT then [ShowPx(PxOf(bits))]
    else if cnt == 6 || cnt == 14 then [HidePx(PxOf(bits)), ShowPx(CENTER)]
    else if cnt == 7 then [HidePx(CENTER), ShowPx(PxOf(bits))]
    else if cnt == 15 then
      [HidePx(CENTER)] +
      if GameWinner(cnt, bits, lastA).Some? then [] else [ShowPx(PxOf(GameDot(cnt, bits, lastA)))]
    else []
  }

  /** A's winning step when A was pressed last runs `next` from index 0
      counter-clockwise: the `i8` subtraction leaves the `i8` range, which
      a build with overflow checks turns into a panic. */
  lemma AWinLeavesI8(clockwise: bool)
    ensures GameWinner(15, Mk(LEFT, clockwise), true) == Some(A)
    ensures I8(MotionBits(Mk(LEFT, clockwise), true)) - 1 < -0x80
  {
    assert MotionBits(Mk(LEFT, clockwise), true) == 0x80;
  }

  /** `game`: draw according to the counter; on a step entered at 15 move
      the dot and stop with the winner if it reached an endpoint; otherwise
      advance the counter. */
  method Game(cnt: i8, dot: DotState, lastA: bool, display: DisplayPins)
    returns (next: i8, winner: Option<Players>)
    requires Pos(dot.bits) <= RIGHT
    modifies dot, display
    ensures winner == GameWinner(cnt, old(dot.bits), lastA)
    ensures dot.bits == GameDot(cnt, old(dot.bits), lastA)
    ensures next == GameCnt(cnt, old(dot.bits), lastA)
    ensures display.log == old(display.log) + GameEffects(cnt, old(dot.bits), lastA)
    ensures winner.None? ==> Pos(dot.bits) <= RIGHT
  {
    if cnt == 15 {
      ghost var log0 := display.log;
      display.UndisplayPx(CENTER);
      winner := DotGameSpiral(dot, lastA);
      if winner.Some? {
        next := cnt;
        return;
      }
      var p := dot.Px();
      display.DisplayPx(p);
      assert display.log == log0 + [HidePx(CENTER), ShowPx(p)];
    } else {
      DrawStill(cnt, dot, display);
      winner := None;
    }
    next := NextCnt(cnt);
  }

  /** The arms of the `match` that leave the dot where it is. */
  method DrawStill(cnt: i8, dot: DotState, display: DisplayPins)
    requires Pos(dot.bits) <= RIGHT && cnt != 15
    modifies display
    ensures display.log == old(display.log) + GameEffects(cnt, dot.bits, false)
  {
    ghost var log0 := display.log;
    ghost var es := GameEffects(cnt, dot.bits, false);
    var p := dot.Px();
    if cnt == INIT_CNT {
      assert es == [ShowPx(p)];
      display.DisplayPx(p);
    } else if cnt == 6 || cnt == 14 {
      assert es == [HidePx(p), ShowPx(CENTER)];
      display.UndisplayPx(p);
      display.DisplayPx(CENTER);
      assert display.log == log0 + es;
    } else if cnt == 7 {
      assert es == [HidePx(CENTER), ShowPx(p)];
      display.UndisplayPx(CENTER);
      display.DisplayPx(p);
      assert display.log == log0 + es;
    } else {
      assert es == [];
    }
  }

  /** `dot_game_spiral`: set the direction from `last_a`, then one spiral
      step whose callback records A if the dot is at index 0 (`is_left`)
      and B otherwise. */
  method DotGameSpiral(dot: DotState, lastA: bool) returns (result: Option<Players>)
    modifies dot
    ensures result == GameWinner(15, old(dot.bits), lastA)
    ensures dot.bits == GameDot(15, old(dot.bits), lastA)
  {
    UpdateDotMotion(dot, lastA);
    var handed := dot.Spiral(Untouched);
    result := None;
    if handed.Some? {
      if Pos(handed.value) == LEFT {
        result := Some(A);
      } else {
        result := Some(B);
      }
    }
  }

  /** `update_dot_motion`. */
  method UpdateDotMotion(dot: DotState, lastA: bool)
    modifies dot
    ensures dot.bits == MotionBits(old(dot.bits), lastA)
  {
    if dot.IsClockwise() == lastA {
      dot.ToggleClockwise();
    }
  }
}
