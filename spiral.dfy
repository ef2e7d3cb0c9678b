/** The dot cursor of `src/spiral.rs`: one signed byte packs a 6-bit index
    into a 49-entry coordinate path (bits 0..5) with a direction bit (bit 7,
    clear = clockwise). The byte is a `bv8`; `+=`/`-=` on it wrap, which is
    how a build without overflow checks executes the `i8` arithmetic. */
module Spiral {
  import opened Common
  import opened Display

  const SPIRAL_LEN: nat := 49
  const START: bv8 := 24
  const COORD_MASK: bv8 := 0x3F
  const CLOCKWISE_MASK: bv8 := 0x80
  const LEFT: nat := 0
  const RIGHT: nat := SPIRAL_LEN - 1
  const CENTER: Px := (2, 2)

  /** The path, from the centre out to (0, 2) at index 24 ... */
  const OUTWARD: seq<Px> := [
    (2, 2), (1, 3), (2, 3), (3, 3), (3, 2), (3, 1), (2, 1), (1, 1),
    (1, 2), (0, 3), (0, 4), (1, 4), (2, 4), (3, 4), (4, 4), (4, 3),
    (4, 2), (4, 1), (4, 0), (3, 0), (2, 0), (1, 0), (0, 0), (0, 1),
    (0, 2)
  ]
  /** ... and back in to the centre at index 48. */
  const INWARD: seq<Px> := [
            (0, 3), (0, 4), (1, 4), (2, 4), (3, 4), (4, 4), (4, 3),
    (4, 2), (4, 1), (4, 0), (3, 0), (2, 0), (1, 0), (0, 0), (0, 1),
    (1, 2), (1, 3), (2, 3), (3, 3), (3, 2), (3, 1), (2, 1), (1, 1),
    (2, 2)
  ]
  /** `SPIRAL`, the 49 coordinates `px` looks up. */
  const SPIRAL_TABLE: seq<Px> := OUTWARD + INWARD

  /** Every entry lies on the matrix, and the centre appears exactly at the
      two endpoints `LEFT` and `RIGHT`. */
  lemma TableFacts()
    ensures |SPIRAL_TABLE| == SPIRAL_LEN
    ensures SPIRAL_TABLE[START as nat] == (0, 2)
    ensures forall i :: 0 <= i < SPIRAL_LEN ==> OnMatrix(SPIRAL_TABLE[i])
    ensures forall i :: 0 <= i < SPIRAL_LEN ==> (SPIRAL_TABLE[i] == CENTER <==> i == LEFT || i == RIGHT)
  {
  }

  /** `pos`: the index bits. */
  function Pos(bits: bv8): (p: nat)
    ensures p < 64
  {
    (bits & COORD_MASK) as nat
  }

  /** `is_clockwise`: the direction bit is clear. */
  predicate Clockwise(bits: bv8) {
    bits & CLOCKWISE_MASK == 0
  }

  predicate AtEnd(bits: bv8) {
    Pos(bits) == LEFT || Pos(bits) == RIGHT
  }

  /** `toggle_clockwise`: xor with the direction mask. */
  function Toggled(bits: bv8): (r: bv8)
    ensures Pos(r) == Pos(bits)
    ensures Clockwise(r) == !Clockwise(bits)
  {
    bits ^ CLOCKWISE_MASK
  }

  /** `next`: first add `is_clockwise() as i8`, then subtract
      `!is_clockwise() as i8`, the second test reading the updated byte. */
  function Advanced(bits: bv8): (r: bv8)
    ensures Clockwise(bits) && Pos(bits) < 63 ==> Clockwise(r) && Pos(r) == Pos(bits) + 1
    ensures !Clockwise(bits) && Pos(bits) > 0 ==> !Clockwise(r) && Pos(r) == Pos(bits) - 1
  {
    var b1 := if Clockwise(bits) then bits + 1 else bits;
    if Clockwise(b1) then b1 else b1 - 1
  }

  /** The byte after one `spiral` call whose callback maps the byte to
      `cb(byte)`; the callback runs only when the index is an endpoint. */
  function SpiralStep(bits: bv8, cb: bv8 -> bv8): (r: bv8)
    ensures !AtEnd(bits) ==> r == Advanced(bits)
    ensures 0 < Pos(bits) < RIGHT && Clockwise(bits) ==> Clockwise(r) && Pos(r) == Pos(bits) + 1
    ensures 0 < Pos(bits) < RIGHT && !Clockwise(bits) ==> !Clockwise(r) && Pos(r) == Pos(bits) - 1
  {
    Advanced(if AtEnd(bits) then cb(bits) else bits)
  }

  /** The coordinate `px` looks up; it panics (out of bounds) past index 48. */
  function PxOf(bits: bv8): (p: Px)
    requires Pos(bits) < SPIRAL_LEN
    ensures OnMatrix(p)
    ensures p == CENTER <==> AtEnd(bits)
  {
    TableFacts();
    SPIRAL_TABLE[Pos(bits)]
  }

  /** The invariant a toggling callback keeps: the index is on the path, and
      an endpoint is only ever reached moving towards it. */
  predicate Inv(bits: bv8) {
    && Pos(bits) <= RIGHT
    && (Pos(bits) == LEFT ==> !Clockwise(bits))
    && (Pos(bits) == RIGHT ==> Clockwise(bits))
  }

  /** Packs an index and a direction the way `DotState` does. */
  function Mk(p: nat, clockwise: bool): (bits: bv8)
    requires p < 64
    ensures Pos(bits) == p && Clockwise(bits) == clockwise
  {
    var b := p as bv8;
    IndexBits(b);
    b | (if clockwise then 0 else CLOCKWISE_MASK)
  }

  /** An index below 64 survives the index mask, with or without the
      direction bit, and leaves the direction bit clear. */
  lemma IndexBits(b: bv8)
    requires b < 64
    ensures b & COORD_MASK == b && (b | CLOCKWISE_MASK) & COORD_MASK == b
    ensures b & CLOCKWISE_MASK == 0 && (b | CLOCKWISE_MASK) & CLOCKWISE_MASK != 0
  {
  }

  /** The two's-complement value of the byte as an `i8`. */
  function I8(bits: bv8): (v: i8)
    ensures bits < 0x80 ==> v == bits as int
    ensures bits >= 0x80 ==> v == bits as int - 0x100
  {
    if bits < 0x80 then bits as int else bits as int - 0x100
  }

  /** With the callback of `src/game/s0_idle.rs` (toggle), every `spiral`
      call keeps the invariant, so `px` never leaves the table. */
  lemma IdleSpiralKeepsInv(bits: bv8)
    requires Inv(bits)
    ensures Inv(SpiralStep(bits, Toggled))
  {
    if AtEnd(bits) {
      var t := Toggled(bits);
      if Pos(bits) == LEFT {
        assert Clockwise(t) && Pos(t) == 0;
      } else {
        assert !Clockwise(t) && Pos(t) == RIGHT;
      }
    }
  }

  /** Away from the endpoints the callback is not called, and one step
      stays on the path whatever the direction. */
  lemma InnerStepStaysOnPath(bits: bv8, cb: bv8 -> bv8)
    requires 0 < Pos(bits) < RIGHT
    ensures SpiralStep(bits, cb) == Advanced(bits)
    ensures Pos(SpiralStep(bits, cb)) <= RIGHT
    ensures Clockwise(SpiralStep(bits, cb)) == Clockwise(bits)
    ensures Pos(SpiralStep(bits, cb)) == if Clockwise(bits) then Pos(bits) + 1 else Pos(bits) - 1
  {
  }

  /** When the path runs from index 0 counter-clockwise, the `i8`
      subtraction of `next` computes -128 - 1, outside the `i8` range: a
      build with overflow checks panics there. */
  lemma LeftEndCounterClockwiseLeavesI8()
    ensures Pos(Mk(LEFT, false)) == LEFT && !Clockwise(Mk(LEFT, false))
    ensures I8(Mk(LEFT, false)) - 1 < -0x80
  {
  }

  /** `n` calls of `spiral` with the toggling callback. */
  function Walk(bits: bv8, n: nat): bv8
    decreases n
  {
    if n == 0 then bits else Walk(SpiralStep(bits, Toggled), n - 1)
  }

  lemma {:induction false} WalkSplit(bits: bv8, m: nat, n: nat)
    ensures Walk(bits, m + n) == Walk(Walk(bits, m), n)
    decreases m
  {
    if m > 0 {
      WalkSplit(SpiralStep(bits, Toggled), m - 1, n);
    }
  }

  lemma {:induction false} WalkUp(p: nat, k: nat)
    requires 1 <= p && p + k <= RIGHT
    ensures Walk(Mk(p, true), k) == Mk(p + k, true)
    decreases k
  {
    if k > 0 {
      StepUp(p);
      WalkUp(p + 1, k - 1);
    }
  }

  /** One clockwise step strictly inside the path. */
  lemma StepUp(p: nat)
    requires 1 <= p < RIGHT
    ensures SpiralStep(Mk(p, true), Toggled) == Mk(p + 1, true)
  {
    var b := Mk(p, true);
    assert b == p as bv8;
    assert !AtEnd(b);
    assert Advanced(b) == b + 1;
  }

  /** One counter-clockwise step strictly inside the path. */
  lemma StepDown(p: nat)
    requires 1 <= p < RIGHT
    ensures SpiralStep(Mk(p, false), Toggled) == Mk(p - 1, false)
  {
    var b := Mk(p, false);
    assert b == (p as bv8) | 0x80;
    assert !AtEnd(b);
    assert Advanced(b) == b - 1;
    assert (p as bv8) | 0x80 == (p as bv8) + 0x80;
    assert ((p - 1) as bv8) | 0x80 == ((p - 1) as bv8) + 0x80;
  }

  lemma {:induction false} WalkDown(p: nat, k: nat)
    requires p < RIGHT && k <= p
    ensures Walk(Mk(p, false), k) == Mk(p - k, false)
    decreases k
  {
    if k > 0 {
      StepDown(p);
      WalkDown(p - 1, k - 1);
    }
  }

  /** From the start, the toggling walk is back at index 24 clockwise after
      96 calls (24 out to index 48, 48 back to index 0, 24 in again), and at
      index 24 counter-clockwise half-way. */
  lemma IdleOrbit()
    ensures Walk(START, 48) == Mk(24, false)
    ensures Walk(START, 96) == START
  {
    assert START == Mk(24, true);
    WalkUp(24, 24);
    assert Walk(Mk(48, true), 1) == Mk(47, false);
    WalkSplit(START, 24, 1);
    WalkDown(47, 23);
    WalkSplit(START, 25, 23);
    WalkDown(47, 47);
    WalkSplit(START, 25, 47);
    assert Walk(Mk(0, false), 1) == Mk(1, true);
    WalkSplit(START, 72, 1);
    WalkUp(1, 23);
    WalkSplit(START, 73, 23);
  }

  /** `DotState`: the packed byte, updated in place. */
  class DotState {
    var bits: bv8

    /** `DotState::new`: index 24, clockwise. */
    constructor ()
      ensures bits == START
      ensures Pos(bits) == 24 && Clockwise(bits) && Inv(bits)
      ensures PxOf(bits) == (0, 2)
    {
      bits := START;
      TableFacts();
    }

    function Px(): (p: Px)
      reads this
      requires Pos(bits) < SPIRAL_LEN
      ensures OnMatrix(p)
    {
      PxOf(bits)
    }

    /** `is_left`: the index is 0, where the dot sits on the centre. */
    predicate IsLeft()
      reads this
      ensures IsLeft() <==> Pos(bits) == LEFT
      ensures IsLeft() ==> AtEnd(bits) && PxOf(bits) == CENTER
    {
      Pos(bits) == LEFT
    }

    /** `is_clockwise`: the direction in which `next` moves the index. */
    predicate IsClockwise()
      reads this
      ensures IsClockwise() && Pos(bits) < 63 ==> Pos(Advanced(bits)) == Pos(bits) + 1
      ensures !IsClockwise() && Pos(bits) > 0 ==> Pos(Advanced(bits)) == Pos(bits) - 1
    {
      Clockwise(bits)
    }

    method ToggleClockwise()
      modifies this
      ensures bits == Toggled(old(bits))
      ensures Pos(bits) == Pos(old(bits))
      ensures Clockwise(bits) == !Clockwise(old(bits))
    {
      bits := bits ^ CLOCKWISE_MASK;
    }

    method Next()
      modifies this
      ensures bits == Advanced(old(bits))
    {
      bits := bits + (if Clockwise(bits) then 1 else 0);
      bits := bits - (if !Clockwise(bits) then 1 else 0);
    }

    /** `spiral`: hands the byte to the callback exactly when the index is
        an endpoint, then always moves once. Returns the byte the callback
        was handed, if it was called. */
    method Spiral(centerCb: bv8 -> bv8) returns (handed: Option<bv8>)
      modifies this
      ensures handed == if AtEnd(old(bits)) then Some(old(bits)) else None
      ensures bits == SpiralStep(old(bits), centerCb)
    {
      var pos := Pos(bits);
      handed := None;
      if pos == LEFT || pos == RIGHT {
        handed := Some(bits);
        bits := centerCb(bits);
      }
      Next();
    }
  }
}
