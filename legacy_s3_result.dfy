/** The result phase of `src/game/s3_result.rs`: the winner's letter is
    drawn column by column for the first half of every 256 ticks, and the
    game restarts on a both-press recorded after the first second.
    `Result.cnt` is `u8` in `src/game/mod.rs`, but this step takes a `u16`
    (with `u8`, `cnt > 255` could never hold); the model follows the step.
    `*cnt += 1` is the wrapping increment of a build without overflow
    checks; with overflow checks it panics at 65535. */
module LegacyS3Result {
  import opened Common
  import opened Display
  import opened S2Game
  import LegacyButtons

  /** Letter glyphs by column, bit k lighting row k. */
  const CHAR_A: seq<u8> := [0x1E, 0x05, 0x05, 0x1E]
  const CHAR_B: seq<u8> := [0x1F, 0x15, 0x15, 0x0A]
  const CHAR_AB: seq<seq<u8>> := [CHAR_A, CHAR_B]

  /** The counter value at which the buttons are reset: one second in. */
  const ONE_SEC: nat := 255

  /** `col_to_undisplay`: the glyph column drawn on the previous tick,
      shifted right by one for B; it panics for `col > 3`. */
  function ColToUndisplay(col: nat, winner: Players): (r: nat)
    requires col <= 3
    ensures r == (col + 3) % 4 + BWins(winner)
  {
    var b := BWins(winner);
    match col
    case 0 => 3 + b
    case 1 => b
    case 2 => 1 + b
    case 3 => 2 + b
  }

  /** The display effects of one step, keyed on the low byte of the
      counter: glyph column `cnt & 3` at column `(cnt & 3) + winner` for
      0..127, clear the last column at 128, nothing for 129..255. */
  function ResultEffects(cnt: u16, winner: Players): (es: seq<Effect>)
    ensures forall e | e in es :: (e.ShowCol? || e.HideCol?) && BWins(winner) <= e.col <= 3 + BWins(winner)
    ensures cnt % 256 <= 127 ==> es == [HideCol(ColToUndisplay(cnt % 4, winner)),
      ShowCol(cnt % 4 + BWins(winner), CHAR_AB[BWins(winner)][cnt % 4])]
    ensures cnt % 256 == 128 ==> es == [HideCol(3 + BWins(winner))]
    ensures cnt % 256 > 128 ==> es == []
  {
    var col := cnt % 4;
    var low := cnt % 256;
    if low <= 127 then
      [HideCol(ColToUndisplay(col, winner)), ShowCol(col + BWins(winner), CHAR_AB[BWins(winner)][col])]
    else if low == 128 then [HideCol(3 + BWins(winner))]
    else []
  }

  /** `result_animation`: draw, count, reset the buttons on the call where
      the counter becomes 255, and report a both-press once the counter is
      past 255. */
  method ResultAnimation(cnt: u16, winner: Players, buttons: LegacyButtons.ButtonState, display: DisplayPins)
    returns (next: u16, again: bool)
    modifies buttons, display
    ensures next == WrappingIncU16(cnt)
    ensures buttons.state == if next == ONE_SEC then 0 else old(buttons.state)
    ensures again <==> next > ONE_SEC && LegacyButtons.BothPressed(buttons.state)
    ensures display.log == old(display.log) + ResultEffects(cnt, winner)
  {
    var col := cnt % 4;
    var low := cnt % 256;
    if low <= 127 {
      DisplayResultCol(col, winner, display);
    } else if low == 128 {
      display.UndisplayCol(3 + BWins(winner));
    }
    next := (cnt + 1) % 0x1_0000;
    if next == ONE_SEC {
      buttons.Reset();
    }
    again := next > ONE_SEC && buttons.IsBothPressed();
  }

  /** `display_result_col`. */
  method DisplayResultCol(col: nat, winner: Players, display: DisplayPins)
    requires col <= 3
    modifies display
    ensures display.log == old(display.log) +
      [HideCol(ColToUndisplay(col, winner)), ShowCol(col + BWins(winner), CHAR_AB[BWins(winner)][col])]
  {
    display.UndisplayCol(ColToUndisplay(col, winner));
    display.DisplayCol(col + BWins(winner), CHAR_AB[BWins(winner)][col]);
  }
}
