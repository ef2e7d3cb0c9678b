/** The result phase of `tug-of-war/src/game/s3_result.rs`. It draws the
    winner's letter as the first revision does, with the counter's low byte
    as the display cycle and `wrapping_add` for the count, and on a restart
    it also hides the column it has just drawn. */
module S3Result {
  import opened Common
  import opened Display
  import opened S2Game
  import LegacyS3Result
  import Buttons

  /** The glyph table is the first revision's. */
  const CHAR_AB: seq<seq<u8>> := LegacyS3Result.CHAR_AB

  const ROW_MASK: nat := 3
  const LAST_COL: nat := 3

  /** The counter value at which the buttons are reset: one second in. */
  const ONE_SEC: nat := 255

  /** `prev_col`: the cyclic predecessor in 0..3; it panics for `col > 3`. */
  function PrevCol(col: nat): (r: nat)
    requires col <= 3
    ensures r <= 3 && (r + 1) % 4 == col
  {
    match col
    case 0 => 3
    case 1 => 0
    case 2 => 1
    case 3 => 2
  }

  /** The drawing part of one step, keyed on the display cycle `cnt as u8`. */
  function ResultEffects(cnt: u16, winner: Players): (es: seq<Effect>)
    ensures forall e | e in es :: (e.ShowCol? || e.HideCol?) && BWins(winner) <= e.col <= LAST_COL + BWins(winner)
    ensures cnt % 256 <= 127 ==> |es| == 2 && es[1] == ShowCol(cnt % 4 + BWins(winner), CHAR_AB[BWins(winner)][cnt % 4])
    ensures cnt % 256 > 128 ==> es == []
  {
    var cycle := cnt % 256;
    var b := BWins(winner);
    if cycle <= 127 then
      var col := cycle % 4;
      [HideCol(PrevCol(col) + b), ShowCol(col + b, CHAR_AB[b][col])]
    else if cycle == 128 then [HideCol(LAST_COL + b)]
    else []
  }

  /** `clear_result_col`: hide the column drawn in this cycle, if any. */
  function ClearEffects(cnt: u16, winner: Players): (es: seq<Effect>)
    ensures cnt % 256 <= 127 ==> es == [HideCol(cnt % 4 + BWins(winner))]
    ensures cnt % 256 > 127 ==> es == []
  {
    var cycle := cnt % 256;
    if cycle <= 127 then [HideCol(cycle % 4 + BWins(winner))] else []
  }

  /** The rewrite draws exactly what the first revision draws. */
  lemma SameDrawingAsLegacy(cnt: u16, winner: Players)
    ensures ResultEffects(cnt, winner) == LegacyS3Result.ResultEffects(cnt, winner)
  {
    assert (cnt % 256) % 4 == cnt % 4;
  }

  /** On a restart the clearing hides the column this step showed, so the
      letter's last column does not stay lit. */
  lemma ClearHidesShown(cnt: u16, winner: Players)
    requires cnt % 256 <= 127
    ensures ResultEffects(cnt, winner)[1].ShowCol?
    ensures ClearEffects(cnt, winner) == [HideCol(ResultEffects(cnt, winner)[1].col)]
  {
    assert (cnt % 256) % 4 == cnt % 4;
  }

  /** Whether the step restarts the game, given the counter after the step
      and the tracker's flag before it: `cnt` is not 255 and is past 255. */
  predicate Again(next: u16, bothPressed: bool) {
    next != ONE_SEC && next > ONE_SEC && bothPressed
  }

  /** The `else if` changes nothing in the restart decision: it holds
      exactly when the first revision's `*cnt > 255 && both_pressed()`
      holds after the reset of its `if`. */
  lemma SameRestartAsLegacy(next: u16, s: bv8)
    ensures var after := if next == LegacyS3Result.ONE_SEC then 0 else s;
      Again(next, Buttons.BothPressed(s)) <==> next > LegacyS3Result.ONE_SEC && Buttons.BothPressed(after)
  {
  }

  /** `result_animation`: draw, count with wrap-around, reset the buttons
      when the counter becomes 255, and otherwise, past 255, restart on a
      both-press after hiding the current column. */
  method ResultAnimation(cnt: u16, winner: Players, buttons: Buttons.ButtonState, display: DisplayPins)
    returns (next: u16, again: bool)
    modifies buttons, display
    ensures next == WrappingIncU16(cnt)
    ensures buttons.state == if next == ONE_SEC then 0 else old(buttons.state)
    ensures again <==> Again(next, Buttons.BothPressed(old(buttons.state)))
    ensures display.log == old(display.log) + ResultEffects(cnt, winner)
      + (if again then ClearEffects(cnt, winner) else [])
  {
    var cycle := cnt % 256;
    var b := BWins(winner);
    if cycle <= 127 {
      DisplayResultCol(cycle, b, display);
    } else if cycle == 128 {
      display.UndisplayCol(LAST_COL + b);
    }
    next := (cnt + 1) % 0x1_0000;
    if next == ONE_SEC {
      buttons.Reset();
    } else if next > ONE_SEC && buttons.IsBothPressed() {
      ClearResultCol(cycle, b, display);
      again := true;
      return;
    }
    again := false;
  }

  /** `display_result_col`. */
  method DisplayResultCol(cycle: nat, b: nat, display: DisplayPins)
    requires cycle <= 127 && b <= 1
    modifies display
    ensures display.log == old(display.log) +
      [HideCol(PrevCol(cycle % 4) + b), ShowCol(cycle % 4 + b, CHAR_AB[b][cycle % 4])]
  {
    var col := cycle % 4;
    display.UndisplayCol(PrevCol(col) + b);
    display.DisplayCol(col + b, CHAR_AB[b][col]);
  }

  /** `clear_result_col`. */
  method ClearResultCol(cycle: nat, b: nat, display: DisplayPins)
    requires cycle <= 255 && b <= 1
    modifies display
    ensures display.log == old(display.log) + (if cycle <= 127 then [HideCol(cycle % 4 + b)] else [])
  {
    if cycle <= 127 {
      display.UndisplayCol(cycle % 4 + b);
    }
  }
}
