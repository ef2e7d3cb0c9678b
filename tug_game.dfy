/** The phase machine of `tug-of-war/src/game/mod.rs`. `poll` is handed the
    RTC and the device, resets the tick event and runs one step of the
    current phase. Unlike the first revision it leaves the button tracker
    alone on entering Ready and Result, and on entering Playing it records
    the random starting direction in the tracker, so that the first playing
    step keeps it unless a button edge arrives before that step. The idle,
    countdown and playing steps are those of `src/game/`. */
module TugGame {
  import opened Common
  import opened Display
  import opened Spiral
  import opened Notes
  import opened Sound
  import opened S0Idle
  import opened S1Ready
  import opened S2Game
  import S3Result
  import Buttons
  import LegacyGame

  /** `Device`; the random number generator enters `poll` as its byte. */
  class Device {
    const buttons: Buttons.ButtonState
    const display: DisplayPins
    const sound: Sound

    constructor (buttons: Buttons.ButtonState, display: DisplayPins, sound: Sound)
      ensures this.buttons == buttons && this.display == display && this.sound == sound
    {
      this.buttons := buttons;
      this.display := display;
      this.sound := sound;
    }

    function Objs(): set<object> {
      {buttons, buttons.gpiote, display} + sound.Objs()
    }

    /** What a phase step may change: everything but the GPIOTE events,
        which only the GPIOTE handler clears. */
    function Parts(): set<object> {
      {buttons, display} + sound.Objs()
    }

    predicate Valid()
      reads this, Objs()
    {
      sound.Valid()
    }
  }

  /** The variants of `Game`; the `dot` of `IdleAnimation` and `Playing` is
      `Game.dot`. `Result.cnt` is declared `u8` but the result step counts
      in a `u16`; the model keeps the step's type. `one_sec` is set and
      never read: the result step does not take it. */
  datatype Phase =
    | IdleAnimation(cnt: i8)
    | ReadyAnimation(readyCnt: u8, countDown: u8)
    | Playing(cnt: i8)
    | Result(resultCnt: u16, winner: Players, oneSec: bool)

  /** A phase with the dot replaced by its byte. */
  datatype GameView =
    | GIdle(bits: bv8, cnt: i8)
    | GReady(readyCnt: u8, countDown: u8)
    | GPlaying(bits: bv8, cnt: i8)
    | GResult(resultCnt: u16, winner: Players, oneSec: bool)

  predicate ViewValid(v: GameView) {
    match v
    case GIdle(bits, _) => Inv(bits)
    case GReady(_, cd) => 1 <= cd <= COUNT_FROM
    case GPlaying(bits, _) => Pos(bits) <= RIGHT
    case GResult(_, _, _) => true
  }

  /** The phase's place in the order Idle, Ready, Playing, Result. */
  function Kind(v: GameView): nat {
    match v
    case GIdle(_, _) => 0
    case GReady(_, _) => 1
    case GPlaying(_, _) => 2
    case GResult(_, _, _) => 3
  }

  /** The tracker byte `playing` leaves: reset, then `set_last_a` when the
      random byte is at most 127, which is also when the dot is toggled. */
  function EntryButtons(random: u8): (s: bv8)
    ensures Buttons.LastA(s) <==> random <= 127
    ensures !Buttons.BothPressed(s)
  {
    if random <= 127 then Buttons.WithLastA(0) else 0
  }

  /** On entering Playing the dot runs clockwise exactly when `last_a()` is
      false. So if no button edge arrives before the first move (the 17th
      poll of the phase), the tracker still holds `EntryButtons` and the
      first `update_dot_motion` keeps the random direction; an edge before
      then decides the direction instead. */
  lemma RandomDirectionKept(random: u8)
    ensures Clockwise(LegacyGame.StartBits(random)) == !Buttons.LastA(EntryButtons(random))
    ensures MotionBits(LegacyGame.StartBits(random), Buttons.LastA(EntryButtons(random))) == LegacyGame.StartBits(random)
  {
  }

  /** Whether the step of phase `v` reports completion, given the tracker
      byte `s` at the poll. */
  predicate StepDone(v: GameView, s: bv8)
    requires ViewValid(v)
  {
    match v
    case GIdle(_, _) => Buttons.BothPressed(s)
    case GReady(c, cd) => ReadyCounters(c, cd).1 == 0
    case GPlaying(bits, cnt) => GameWinner(cnt, bits, Buttons.LastA(s)).Some?
    case GResult(c, _, _) => S3Result.Again(WrappingIncU16(c), Buttons.BothPressed(s))
  }

  /** The phase after one poll. */
  function NextView(v: GameView, s: bv8, random: u8): (r: GameView)
    requires ViewValid(v)
    ensures ViewValid(r)
    ensures Kind(r) == if StepDone(v, s) then LegacyGame.Successor(Kind(v)) else Kind(v)
    ensures r.GIdle? ==> v.GIdle?
  {
    match v
    case GIdle(bits, cnt) =>
      if Buttons.BothPressed(s) then GReady(0, COUNT_FROM)
      else GIdle(IdleDot(cnt, bits), NextCnt(cnt))
    case GReady(c, cd) =>
      var (nc, ncd) := ReadyCounters(c, cd);
      if ncd == 0 then GPlaying(LegacyGame.StartBits(random), INIT_CNT) else GReady(nc, ncd)
    case GPlaying(bits, cnt) =>
      var lastA := Buttons.LastA(s);
      var w := GameWinner(cnt, bits, lastA);
      if w.Some? then GResult(0, w.value, false)
      else GPlaying(GameDot(cnt, bits, lastA), GameCnt(cnt, bits, lastA))
    case GResult(c, w, oneSec) =>
      if StepDone(v, s) then GReady(0, COUNT_FROM) else GResult(WrappingIncU16(c), w, oneSec)
  }

  /** The tracker byte after one poll: only entering Playing and the result
      step's one-second mark change it. */
  function NextButtons(v: GameView, s: bv8, random: u8): (r: bv8)
    requires ViewValid(v)
    ensures NextView(v, s, random).GPlaying? && !v.GPlaying? ==> r == EntryButtons(random)
    ensures NextView(v, s, random).GReady? || NextView(v, s, random).GIdle? ==> r == s
    ensures v.GPlaying? ==> r == s
  {
    match v
    case GReady(c, cd) => if StepDone(v, s) then EntryButtons(random) else s
    case GResult(c, _, _) => if WrappingIncU16(c) == S3Result.ONE_SEC then 0 else s
    case _ => s
  }

  /** The display effects of one poll. */
  function PollEffects(v: GameView, s: bv8): seq<Effect>
    requires ViewValid(v)
  {
    match v
    case GIdle(bits, cnt) =>
      IdleEffects(cnt, bits) + if Buttons.BothPressed(s) then ClearEffects(IdleDot(cnt, bits)) else []
    case GReady(c, cd) => ReadyEffects(c, cd)
    case GPlaying(bits, cnt) => GameEffects(cnt, bits, Buttons.LastA(s))
    case GResult(c, w, _) =>
      S3Result.ResultEffects(c, w) + if StepDone(v, s) then S3Result.ClearEffects(c, w) else []
  }

  /** The tracks one poll starts: `DI_LO` on a countdown step entered at 0,
      `DI_HI` on entering Playing, `PEPPA` on entering Result. */
  function PollTracks(v: GameView, s: bv8): (ts: seq<seq<Note>>)
    requires ViewValid(v)
    ensures v.GIdle? || v.GResult? ==> ts == []
  {
    match v
    case GIdle(_, _) => []
    case GReady(c, cd) => (if c == 0 then [DI_LO] else []) + (if StepDone(v, s) then [DI_HI] else [])
    case GPlaying(_, _) => if StepDone(v, s) then [PEPPA] else []
    case GResult(_, _, _) => []
  }

  /** The phase after a sequence of polls, the tracker byte seen by the
      `k`-th poll being `ss[k]`. One byte `random` serves every poll of the
      run, so a run that enters Playing twice replays the same draw; the
      lemmas over runs enter Playing at most once. */
  function Run(v: GameView, ss: seq<bv8>, random: u8): (r: GameView)
    requires ViewValid(v)
    ensures ViewValid(r)
    decreases |ss|
  {
    if ss == [] then v else Run(NextView(v, ss[0], random), ss[1..], random)
  }

  /** The result phase cannot restart the game in its first 255 polls,
      whatever the buttons do. */
  lemma {:induction false} ResultWaits(c: nat, w: Players, oneSec: bool, ss: seq<bv8>, random: u8)
    requires c + |ss| <= S3Result.ONE_SEC
    ensures Run(GResult(c as u16, w, oneSec), ss, random) == GResult((c + |ss|) as u16, w, oneSec)
    decreases |ss|
  {
    if ss != [] {
      ResultWaits(c + 1, w, oneSec, ss[1..], random);
    }
  }

  /** `Game`: the phase, and the dot of the Idle and Playing variants. The
      firmware stores the dot inline in those variants, so the model gives
      the game one `DotState` object, updated in place by the steps and set
      afresh by `playing`. */
  class Game {
    var phase: Phase
    const dot: DotState

    /** The game and its dot; the same set in every state. */
    function Objs(): set<object> {
      {this, dot}
    }

    function View(): GameView
      reads this, Objs()
    {
      match phase
      case IdleAnimation(cnt) => GIdle(dot.bits, cnt)
      case ReadyAnimation(c, cd) => GReady(c, cd)
      case Playing(cnt) => GPlaying(dot.bits, cnt)
      case Result(c, w, oneSec) => GResult(c, w, oneSec)
    }

    predicate Valid()
      reads this, Objs()
    {
      ViewValid(View())
    }

    /** `Game::new`: idle, counter at `INIT_CN`, a new dot. */
    constructor New()
      ensures Valid() && View() == GIdle(START, INIT_CN)
      ensures fresh(dot)
    {
      dot := new DotState();
      phase := IdleAnimation(INIT_CN);
    }

    /** The state after one phase step from view `v`, tracker byte `s`,
        display log `log`, sequencer view `av` and PWM log `ops`. */
    predicate Stepped(device: Device, v: GameView, s: bv8, log: seq<Effect>, av: AudioView, ops: seq<PwmOp>, random: u8)
      reads this, Objs(), device, device.Objs()
      requires ViewValid(v)
    {
      && device.Valid()
      && View() == NextView(v, s, random)
      && device.buttons.state == NextButtons(v, s, random)
      && device.display.log == log + PollEffects(v, s)
      && device.sound.View() == PlayAllView(av, PollTracks(v, s))
      && device.sound.ops == ops + PlayAllOps(av, PollTracks(v, s))
    }

    /** `poll`: reset the tick event, then one phase step. */
    method Poll(rtc: Rtc, device: Device, random: u8)
      requires Valid() && device.Valid()
      modifies Objs(), rtc, device.Parts()
      ensures Valid() && !rtc.tickEvent
      ensures Stepped(device, old(View()), old(device.buttons.state),
        old(device.display.log), old(device.sound.View()), old(device.sound.ops), random)
    {
      rtc.ResetTick();
      assert rtc !in Objs() + device.Objs();
      match phase
      case IdleAnimation(_) => IdleStep(device, random);
      case ReadyAnimation(_, _) => ReadyStep(device, random);
      case Playing(_) => PlayingStep(device, random);
      case Result(c, w, oneSec) => ResultStep(device, random);
    }

    method IdleStep(device: Device, random: u8)
      requires Valid() && device.Valid() && phase.IdleAnimation?
      modifies Objs(), device.Parts()
      ensures Valid()
      ensures Stepped(device, old(View()), old(device.buttons.state),
        old(device.display.log), old(device.sound.View()), old(device.sound.ops), random)
    {
      var cnt := phase.cnt;
      var next, started := S0Idle.IdleAnimation(cnt, dot, device.buttons.IsBothPressed(), device.display);
      if started {
        phase := EnterReady();
      } else {
        phase := IdleAnimation(next);
      }
    }

    method ReadyStep(device: Device, random: u8)
      requires Valid() && device.Valid() && phase.ReadyAnimation?
      modifies Objs(), device.Parts()
      ensures Valid()
      ensures Stepped(device, old(View()), old(device.buttons.state),
        old(device.display.log), old(device.sound.View()), old(device.sound.ops), random)
    {
      var c, cd := phase.readyCnt, phase.countDown;
      ghost var v0, s0 := View(), device.buttons.state;
      ghost var av0, ops0 := device.sound.View(), device.sound.ops;
      ghost var log0 := device.display.log;
      var nc, ncd, done := S1Ready.ReadyAnimation(c, cd, device.display, device.sound);
      ghost var beep := if c == 0 then [DI_LO] else [];
      assert device.sound.View() == PlayAllView(av0, beep);
      assert device.sound.ops == ops0 + PlayAllOps(av0, beep);
      if done {
        BeginGame(device, v0, s0, log0, av0, ops0, beep, random);
      } else {
        KeepCounting(nc, ncd, device, v0, s0, log0, av0, ops0, beep, random);
      }
    }

    method PlayingStep(device: Device, random: u8)
      requires Valid() && device.Valid() && phase.Playing?
      modifies Objs(), device.Parts()
      ensures Valid()
      ensures Stepped(device, old(View()), old(device.buttons.state),
        old(device.display.log), old(device.sound.View()), old(device.sound.ops), random)
    {
      var cnt := phase.cnt;
      ghost var v0, s0 := View(), device.buttons.state;
      ghost var av0, ops0 := device.sound.View(), device.sound.ops;
      ghost var log0 := device.display.log;
      var next, winner := S2Game.Game(cnt, dot, device.buttons.IsLastA(), device.display);
      if winner.Some? {
        EndGame(winner.value, device, v0, s0, log0, random);
      } else {
        KeepPlaying(next, device, v0, s0, log0, av0, ops0, random);
      }
    }

    method ResultStep(device: Device, random: u8)
      requires Valid() && device.Valid() && phase.Result?
      modifies Objs(), device.Parts()
      ensures Valid()
      ensures Stepped(device, old(View()), old(device.buttons.state),
        old(device.display.log), old(device.sound.View()), old(device.sound.ops), random)
    {
      var c, w, oneSec := phase.resultCnt, phase.winner, phase.oneSec;
      var next, again := S3Result.ResultAnimation(c, w, device.buttons, device.display);
      if again {
        phase := EnterReady();
      } else {
        phase := Result(next, w, oneSec);
      }
    }

    /** What a countdown step that does not end the countdown leaves. */
    static lemma CountingStep(v0: GameView, s0: bv8, nc: u8, ncd: u8, beep: seq<seq<Note>>, random: u8)
      requires v0.GReady? && 1 <= v0.countDown <= COUNT_FROM
      requires (nc, ncd) == ReadyCounters(v0.readyCnt, v0.countDown) && ncd != 0
      requires beep == if v0.readyCnt == 0 then [DI_LO] else []
      ensures NextView(v0, s0, random) == GReady(nc, ncd) && NextButtons(v0, s0, random) == s0
      ensures PollTracks(v0, s0) == beep
    {
      assert !StepDone(v0, s0);
    }

    /** A countdown step that does not end the countdown. */
    method KeepCounting(nc: u8, ncd: u8, device: Device, ghost v0: GameView, ghost s0: bv8, ghost log0: seq<Effect>,
                        ghost av0: AudioView, ghost ops0: seq<PwmOp>, ghost beep: seq<seq<Note>>, random: u8)
      requires device.Valid() && v0.GReady? && 1 <= v0.countDown <= COUNT_FROM
      requires (nc, ncd) == ReadyCounters(v0.readyCnt, v0.countDown) && ncd != 0
      requires beep == if v0.readyCnt == 0 then [DI_LO] else []
      requires device.buttons.state == s0 && device.display.log == log0 + PollEffects(v0, s0)
      requires device.sound.View() == PlayAllView(av0, beep) && device.sound.ops == ops0 + PlayAllOps(av0, beep)
      modifies this
      ensures Valid()
      ensures Stepped(device, v0, s0, log0, av0, ops0, random)
    {
      CountingStep(v0, s0, nc, ncd, beep, random);
      phase := ReadyAnimation(nc, ncd);
    }

    /** A playing step without a winner. */
    method KeepPlaying(next: i8, device: Device, ghost v0: GameView, ghost s0: bv8,
                       ghost log0: seq<Effect>, ghost av0: AudioView, ghost ops0: seq<PwmOp>, random: u8)
      requires phase.Playing?
      requires device.Valid() && v0.GPlaying? && Pos(v0.bits) <= RIGHT
      requires GameWinner(v0.cnt, v0.bits, Buttons.LastA(s0)).None?
      requires dot.bits == GameDot(v0.cnt, v0.bits, Buttons.LastA(s0)) && next == GameCnt(v0.cnt, v0.bits, Buttons.LastA(s0))
      requires device.buttons.state == s0 && device.display.log == log0 + PollEffects(v0, s0)
      requires device.sound.View() == av0 && device.sound.ops == ops0
      modifies this
      ensures Valid()
      ensures Stepped(device, v0, s0, log0, av0, ops0, random)
    {
      assert !StepDone(v0, s0) && PollTracks(v0, s0) == [];
      assert NextView(v0, s0, random) == GPlaying(dot.bits, next);
      phase := Phase.Playing(next);
    }

    /** What the countdown step that ends the countdown leaves. */
    static lemma BeginStep(v0: GameView, s0: bv8, beep: seq<seq<Note>>, random: u8)
      requires v0.GReady? && 1 <= v0.countDown <= COUNT_FROM
      requires ReadyCounters(v0.readyCnt, v0.countDown).1 == 0
      requires beep == if v0.readyCnt == 0 then [DI_LO] else []
      ensures NextView(v0, s0, random) == GPlaying(LegacyGame.StartBits(random), INIT_CNT)
      ensures NextButtons(v0, s0, random) == EntryButtons(random)
      ensures PollTracks(v0, s0) == beep + [DI_HI]
    {
      assert StepDone(v0, s0);
    }

    /** The arm of `poll` that ends the countdown: enter Playing. */
    method BeginGame(device: Device, ghost v0: GameView, ghost s0: bv8, ghost log0: seq<Effect>,
                     ghost av0: AudioView, ghost ops0: seq<PwmOp>, ghost beep: seq<seq<Note>>, random: u8)
      requires device.Valid() && v0.GReady? && 1 <= v0.countDown <= COUNT_FROM
      requires ReadyCounters(v0.readyCnt, v0.countDown).1 == 0
      requires beep == if v0.readyCnt == 0 then [DI_LO] else []
      requires device.buttons.state == s0 && device.display.log == log0 + PollEffects(v0, s0)
      requires device.sound.View() == PlayAllView(av0, beep) && device.sound.ops == ops0 + PlayAllOps(av0, beep)
      modifies Objs(), device.Parts()
      ensures Valid()
      ensures Stepped(device, v0, s0, log0, av0, ops0, random)
    {
      BeginStep(v0, s0, beep, random);
      EnterPlaying(random, device);
      PlayOneMore(av0, beep, DI_HI);
      assert View() == NextView(v0, s0, random);
      assert device.sound.View() == PlayAllView(av0, PollTracks(v0, s0));
      assert device.sound.ops == ops0 + PlayAllOps(av0, PollTracks(v0, s0));
    }

    /** The winner arm of `poll`: enter Result. */
    method EndGame(winner: Players, device: Device, ghost v0: GameView, ghost s0: bv8, ghost log0: seq<Effect>, random: u8)
      requires device.Valid() && v0.GPlaying? && Pos(v0.bits) <= RIGHT
      requires GameWinner(v0.cnt, v0.bits, Buttons.LastA(s0)) == Some(winner)
      requires device.buttons.state == s0 && device.display.log == log0 + PollEffects(v0, s0)
      modifies this, device.Parts()
      ensures Valid()
      ensures Stepped(device, v0, s0, log0, old(device.sound.View()), old(device.sound.ops), random)
    {
      assert StepDone(v0, s0) && NextView(v0, s0, random) == GResult(0, winner, false);
      assert PollTracks(v0, s0) == [PEPPA];
      ghost var av0 := device.sound.View();
      EnterResult(winner, device.sound);
      PlayOneMore(av0, [], PEPPA);
      assert [] + [PEPPA] == [PEPPA];
    }

    /** `ready_animation`: counters at 0 and 3; the buttons are untouched. */
    static method EnterReady() returns (p: Phase)
      ensures p == ReadyAnimation(0, COUNT_FROM)
    {
      p := ReadyAnimation(0, COUNT_FROM);
    }

    /** `playing`: the dot set afresh and a reset tracker; when the random
        byte is at most 127 the dot is toggled and A recorded as last;
        `DI_HI`; counter at `INIT_CNT`. */
    method EnterPlaying(random: u8, device: Device)
      requires device.Valid()
      modifies Objs(), device.Parts()
      ensures phase.Playing? && dot.bits == LegacyGame.StartBits(random) && phase.cnt == INIT_CNT
      ensures device.buttons.state == EntryButtons(random) && device.display.log == old(device.display.log)
      ensures device.Valid()
      ensures device.sound.View() == PlayTrackView(old(device.sound.View()), DI_HI)
      ensures device.sound.ops == old(device.sound.ops) + PlayTrackOps(old(device.sound.View()), DI_HI)
    {
      dot.bits := START; // the `DotState::new()` moved into the variant
      device.buttons.Reset();
      if random <= 127 {
        dot.ToggleClockwise();
        device.buttons.SetLastA();
      }
      device.sound.PlayTrack(DI_HI);
      phase := Phase.Playing(INIT_CNT);
    }

    /** `result`: `PEPPA`, counter at 0, `one_sec` false. */
    method EnterResult(winner: Players, sound: Sound)
      requires sound.Valid()
      modifies this, sound.Objs()
      ensures phase == Result(0, winner, false)
      ensures sound.Valid()
      ensures sound.View() == PlayTrackView(old(sound.View()), PEPPA)
      ensures sound.ops == old(sound.ops) + PlayTrackOps(old(sound.View()), PEPPA)
    {
      sound.PlayTrack(PEPPA);
      phase := Result(0, winner, false);
    }
  }
}
