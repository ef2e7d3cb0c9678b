/** The countdown phase of `src/game/s1_ready.rs`: the digits 3, 2, 1 are
    drawn column by column, one digit per 256 ticks (one second at 256 Hz),
    with a beep at the start of each digit. */
module S1Ready {
  import opened Common
  import opened Display
  import opened Notes
  import opened Sound

  /** Digit glyphs by column, bit k lighting row k. */
  const THREE: seq<u8> := [0x09, 0x11, 0x15, 0x0B]
  const TWO: seq<u8> := [0x19, 0x15, 0x15, 0x12]
  const ONE: seq<u8> := [0x12, 0x1F, 0x10, 0x00]
  const COUNTDOWN: seq<seq<u8>> := [ONE, TWO, THREE]

  /** The digits start at 3. */
  const COUNT_FROM: u8 := 3

  /** `col_to_undisplay`: the column lit on the previous tick, the cyclic
      predecessor of `col` in 1..4; it panics outside 1..4. */
  function ColToUndisplay(col: nat): (r: nat)
    requires 1 <= col <= 4
    ensures 1 <= r <= 4 && r % 4 + 1 == col
  {
    match col
    case 1 => 4
    case 2 => 1
    case 3 => 2
    case 4 => 3
  }

  /** The counters after one step: `cnt` counts ticks and wraps to 0 at
      255, taking one off `count_down`. */
  function ReadyCounters(cnt: u8, countDown: u8): (r: (u8, u8))
    requires 1 <= countDown
    ensures cnt < 255 ==> r == (cnt + 1, countDown)
    ensures cnt == 255 ==> r == (0, countDown - 1)
  {
    if cnt == 255 then (0, countDown - 1) else (cnt + 1, countDown)
  }

  /** The display effects of one step: hide the previous column, show
      column `(cnt & 3) + 1` of the current digit, and clear column 4 when
      the countdown ends. */
  function ReadyEffects(cnt: u8, countDown: u8): (es: seq<Effect>)
    requires 1 <= countDown <= 3
    ensures forall e | e in es :: (e.ShowCol? || e.HideCol?) && 1 <= e.col <= 4
  {
    var col := cnt % 4;
    [HideCol(ColToUndisplay(col + 1)), ShowCol(col + 1, COUNTDOWN[countDown - 1][col])]
      + (if ReadyCounters(cnt, countDown).1 == 0 then [HideCol(4)] else [])
  }

  /** The digit on screen while `count_down` is 3, 2 and 1 is THREE, TWO
      and ONE. */
  lemma DigitShown(cnt: u8, countDown: u8)
    requires 1 <= countDown <= 3
    ensures ReadyEffects(cnt, countDown)[1] ==
      ShowCol(cnt % 4 + 1, (if countDown == 3 then THREE else if countDown == 2 then TWO else ONE)[cnt % 4])
  {
  }

  /** The counters after `n` steps from the phase's start (cnt 0,
      count_down 3); steps stop at count_down 0. */
  function ReadyAfter(n: nat): (r: (u8, u8))
    ensures r.1 <= COUNT_FROM
    ensures r.1 == 0 ==> r.0 == 0
    decreases n
  {
    if n == 0 then (0, COUNT_FROM)
    else
      var p := ReadyAfter(n - 1);
      if p.1 >= 1 then ReadyCounters(p.0, p.1) else p
  }

  /** Closed form: after `n <= 768` steps, `cnt` is `n mod 256` and
      `count_down` is `3 - n / 256`. */
  lemma {:induction false} ReadyAfterClosed(n: nat)
    requires n <= 768
    ensures ReadyAfter(n) == (n % 256, 3 - n / 256)
    decreases n
  {
    if n > 0 {
      var m := n - 1;
      ReadyAfterClosed(m);
      var q, r := m / 256, m % 256;
      if r < 255 {
        assert n == 256 * q + (r + 1);
        assert n % 256 == r + 1 && n / 256 == q;
      } else {
        assert n == 256 * (q + 1);
        assert n % 256 == 0 && n / 256 == q + 1;
      }
    }
  }

  /** The step returns true (count_down reaches 0) on the 768th call and
      on no earlier one. */
  lemma CountdownLasts768(n: nat)
    requires 1 <= n <= 768
    ensures ReadyAfter(n).1 == 0 <==> n == 768
  {
    ReadyAfterClosed(n);
  }

  /** `DI_LO` is played on call `n` (entered with cnt 0) exactly for the
      first call of each digit: calls 1, 257 and 513. */
  lemma BeepOncePerDigit(n: nat)
    requires 1 <= n <= 768
    ensures ReadyAfter(n - 1).0 == 0 <==> n == 1 || n == 257 || n == 513
  {
    var m := n - 1;
    ReadyAfterClosed(m);
    if m < 256 {
      assert m % 256 == m;
    } else if m < 512 {
      assert m % 256 == m - 256;
    } else {
      assert m % 256 == m - 512;
    }
  }

  /** `ready_animation`: draw one column, beep on a digit's first tick,
      count, and report (clearing column 4) when the countdown is over. */
  method ReadyAnimation(cnt: u8, countDown: u8, display: DisplayPins, sound: Sound)
    returns (nextCnt: u8, nextCountDown: u8, done: bool)
    requires 1 <= countDown <= 3
    requires sound.Valid()
    modifies display, sound.Objs()
    ensures (nextCnt, nextCountDown) == ReadyCounters(cnt, countDown)
    ensures done <==> nextCountDown == 0
    ensures display.log == old(display.log) + ReadyEffects(cnt, countDown)
    ensures sound.Valid()
    ensures cnt == 0 ==>
      && sound.View() == PlayTrackView(old(sound.View()), DI_LO)
      && sound.ops == old(sound.ops) + PlayTrackOps(old(sound.View()), DI_LO)
    ensures cnt != 0 ==>
      && sound.state == old(sound.state) && sound.ops == old(sound.ops)
      && sound.View() == old(sound.View())
  {
    var col := cnt % 4;
    var cntDown := countDown - 1;
    DisplayCountdownCol(col + 1, COUNTDOWN[cntDown][col], display);
    if cnt == 0 {
      sound.PlayTrack(DI_LO);
    }
    if cnt == 255 {
      nextCountDown := countDown - 1;
      nextCnt := 0;
    } else {
      nextCnt := cnt + 1;
      nextCountDown := countDown;
    }
    if nextCountDown == 0 {
      display.UndisplayCol(4);
      done := true;
    } else {
      done := false;
    }
  }

  /** `display_countdown_col`: hide the previous column, show this one. */
  method DisplayCountdownCol(col: nat, code: u8, display: DisplayPins)
    requires 1 <= col <= 4
    modifies display
    ensures display.log == old(display.log) + [HideCol(ColToUndisplay(col)), ShowCol(col, code)]
  {
    display.UndisplayCol(ColToUndisplay(col));
    display.DisplayCol(col, code);
  }
}
