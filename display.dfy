/** The LED matrix, as an effector: every call of `display_px`,
    `undisplay_px`, `display_col` and `undisplay_col` appends one entry to a
    log. The matrix is 5 by 5, and the pins are indexed by array, so an
    index of 5 or more would panic: the methods require it in range. */
module Display {
  import opened Common

  const NUM_ROWS: nat := 5
  const NUM_COLS: nat := 5

  type Px = (nat, nat)

  predicate OnMatrix(p: Px) {
    p.0 < NUM_ROWS && p.1 < NUM_COLS
  }

  datatype Effect =
    | ShowPx(px: Px)
    | HidePx(px: Px)
    | ShowCol(col: nat, code: u8)
    | HideCol(col: nat)

  class DisplayPins {
    var log: seq<Effect>

    constructor ()
      ensures log == []
    {
      log := [];
    }

    method DisplayPx(p: Px)
      requires OnMatrix(p)
      modifies this
      ensures log == old(log) + [ShowPx(p)]
    {
      log := log + [ShowPx(p)];
    }

    method UndisplayPx(p: Px)
      requires OnMatrix(p)
      modifies this
      ensures log == old(log) + [HidePx(p)]
    {
      log := log + [HidePx(p)];
    }

    method DisplayCol(col: nat, code: u8)
      requires col < NUM_COLS
      modifies this
      ensures log == old(log) + [ShowCol(col, code)]
    {
      log := log + [ShowCol(col, code)];
    }

    method UndisplayCol(col: nat)
      requires col < NUM_COLS
      modifies this
      ensures log == old(log) + [HideCol(col)]
    {
      log := log + [HideCol(col)];
    }
  }
}
