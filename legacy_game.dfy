/** The phase machine of `src/game/mod.rs`. Every RTC tick `poll` resets the
    tick event, and then, if the device has been set up, runs one step of
    the current phase; a step that reports completion moves the game to the
    next phase. This revision resets the button tracker on entering every
    phase after the idle one. */
module LegacyGame {
  import opened Common
  import opened Display
  import opened Spiral
  import opened Notes
  import opened Sound
  import opened S0Idle
  import opened S1Ready
  import opened S2Game
  import LegacyS3Result
  import LegacyButtons

  /** `Device`. The random number generator is not modelled: the byte it
      would draw enters `poll` as a parameter. */
  class Device {
    const display: DisplayPins
    const buttons: LegacyButtons.ButtonState
    const gpiote: Gpiote
    const sound: Sound

    constructor (display: DisplayPins, buttons: LegacyButtons.ButtonState, gpiote: Gpiote, sound: Sound)
      ensures this.display == display && this.buttons == buttons
      ensures this.gpiote == gpiote && this.sound == sound
    {
      this.display := display;
      this.buttons := buttons;
      this.gpiote := gpiote;
      this.sound := sound;
    }

    function Objs(): set<object> {
      {display, buttons, gpiote} + sound.Objs()
    }

    /** What a phase step may change: everything but the GPIOTE events,
        which only the GPIOTE handler clears. */
    function Parts(): set<object> {
      {display, buttons} + sound.Objs()
    }

    predicate Valid()
      reads this, Objs()
    {
      sound.Valid()
    }
  }

  /** The variants of `Game`; the `dot` of `IdleAnimation` and `Playing` is
      `Game.dot`. `Result.cnt` is declared `u8` in the enum but the result
      step counts in a `u16`; the model keeps the step's type. */
  datatype Phase =
    | IdleAnimation(cnt: i8)
    | ReadyAnimation(readyCnt: u8, countDown: u8)
    | Playing(cnt: i8)
    | Result(resultCnt: u16, winner: Players)

  /** A phase with the dot replaced by its byte. */
  datatype GameView =
    | GIdle(bits: bv8, cnt: i8)
    | GReady(readyCnt: u8, countDown: u8)
    | GPlaying(bits: bv8, cnt: i8)
    | GResult(resultCnt: u16, winner: Players)

  /** What every phase needs of its fields: the idle dot on its path, the
      countdown in 1..3, the playing dot at an index of the table. */
  predicate ViewValid(v: GameView) {
    match v
    case GIdle(bits, _) => Inv(bits)
    case GReady(_, cd) => 1 <= cd <= COUNT_FROM
    case GPlaying(bits, _) => Pos(bits) <= RIGHT
    case GResult(_, _) => true
  }

  /** The phase's place in the order Idle, Ready, Playing, Result. */
  function Kind(v: GameView): nat {
    match v
    case GIdle(_, _) => 0
    case GReady(_, _) => 1
    case GPlaying(_, _) => 2
    case GResult(_, _) => 3
  }

  /** Idle, Ready, Playing and Result follow each other in this order, and
      Result goes back to Ready. */
  function Successor(k: nat): nat {
    if k == 3 then 1 else k + 1
  }

  /** The dot `start_game` creates: `DotState::new`, toggled when the
      random byte is at most 127. */
  function StartBits(random: u8): (bits: bv8)
    ensures Pos(bits) == Pos(START)
    ensures Clockwise(bits) <==> random > 127
  {
    if random <= 127 then Toggled(START) else START
  }

  /** Whether the step of phase `v` reports completion, given the tracker
      byte `s` at the poll. */
  predicate StepDone(v: GameView, s: bv8)
    requires ViewValid(v)
  {
    match v
    case GIdle(_, _) => LegacyButtons.BothPressed(s)
    case GReady(c, cd) => ReadyCounters(c, cd).1 == 0
    case GPlaying(bits, cnt) => GameWinner(cnt, bits, LegacyButtons.LastA(s)).Some?
    case GResult(c, _) =>
      var next := WrappingIncU16(c);
      next > LegacyS3Result.ONE_SEC && LegacyButtons.BothPressed(s)
  }

  /** The phase after one poll with the device present. */
  function NextView(v: GameView, s: bv8, random: u8): (r: GameView)
    requires ViewValid(v)
    ensures ViewValid(r)
    ensures Kind(r) == if StepDone(v, s) then Successor(Kind(v)) else Kind(v)
    ensures r.GIdle? ==> v.GIdle?
  {
    match v
    case GIdle(bits, cnt) =>
      if LegacyButtons.BothPressed(s) then GReady(0, COUNT_FROM)
      else GIdle(IdleDot(cnt, bits), NextCnt(cnt))
    case GReady(c, cd) =>
      var (nc, ncd) := ReadyCounters(c, cd);
      if ncd == 0 then GPlaying(StartBits(random), INIT_CNT) else GReady(nc, ncd)
    case GPlaying(bits, cnt) =>
      var lastA := LegacyButtons.LastA(s);
      var w := GameWinner(cnt, bits, lastA);
      if w.Some? then GResult(0, w.value)
      else GPlaying(GameDot(cnt, bits, lastA), GameCnt(cnt, bits, lastA))
    case GResult(c, w) =>
      if StepDone(v, s) then GReady(0, COUNT_FROM) else GResult(WrappingIncU16(c), w)
  }

  /** The tracker byte after one poll: reset on entering a phase, and by the
      result step when its counter reaches 255. */
  function NextButtons(v: GameView, s: bv8, random: u8): (r: bv8)
    requires ViewValid(v)
    ensures Kind(NextView(v, s, random)) != Kind(v) ==> r == 0
    ensures !v.GResult? && Kind(NextView(v, s, random)) == Kind(v) ==> r == s
  {
    match v
    case GResult(c, _) =>
      if StepDone(v, s) || WrappingIncU16(c) == LegacyS3Result.ONE_SEC then 0 else s
    case _ => if StepDone(v, s) then 0 else s
  }

  /** The display effects of one poll. */
  function PollEffects(v: GameView, s: bv8): seq<Effect>
    requires ViewValid(v)
  {
    match v
    case GIdle(bits, cnt) =>
      IdleEffects(cnt, bits) + if LegacyButtons.BothPressed(s) then ClearEffects(IdleDot(cnt, bits)) else []
    case GReady(c, cd) => ReadyEffects(c, cd)
    case GPlaying(bits, cnt) => GameEffects(cnt, bits, LegacyButtons.LastA(s))
    case GResult(c, w) => LegacyS3Result.ResultEffects(c, w)
  }

  /** The tracks one poll starts: `DI_LO` on a countdown step entered at 0,
      `DI_HI` on entering Playing, `PEPPA` on entering Result. */
  function PollTracks(v: GameView, s: bv8): (ts: seq<seq<Note>>)
    requires ViewValid(v)
    ensures v.GIdle? || v.GResult? ==> ts == []
  {
    match v
    case GIdle(_, _) => []
    case GReady(c, cd) => (if c == 0 then [DI_LO] else []) + (if StepDone(v, s) then [DI_HI] else [])
    case GPlaying(_, _) => if StepDone(v, s) then [PEPPA] else []
    case GResult(_, _) => []
  }

  /** The random byte never decides the dot's first move: `update_dot_motion`
      sets the direction from `last_a()` alone, so two draws give the same
      byte after it, whatever the tracker holds. Entering Playing resets the
      tracker, so if no button edge arrives before that first move (the
      17th poll of the phase) `last_a()` is still true and the dot leaves
      its start counter-clockwise. */
  lemma RandomDirectionLost(r1: u8, r2: u8, lastA: bool)
    ensures MotionBits(StartBits(r1), lastA) == MotionBits(StartBits(r2), lastA)
    ensures !Clockwise(MotionBits(StartBits(r1), LegacyButtons.LastA(0)))
  {
  }

  /** The phase after a sequence of polls, the tracker byte seen by the
      `k`-th poll being `ss[k]`. One byte `random` serves every poll of the
      run, so a run that enters Playing twice replays the same draw; the
      lemmas over runs enter Playing at most once. */
  function Run(v: GameView, ss: seq<bv8>, random: u8): (r: GameView)
    requires ViewValid(v)
    ensures ViewValid(r)
    decreases |ss|
  {
    if ss == [] then v else Run(NextView(v, ss[0], random), ss[1..], random)
  }

  /** One countdown poll, `n` polls into the phase. */
  lemma CountdownStep(n: nat, s: bv8, random: u8)
    requires n < 768
    ensures NextView(GReady((n % 256) as u8, (3 - n / 256) as u8), s, random) ==
      if n + 1 == 768 then GPlaying(StartBits(random), INIT_CNT)
      else GReady(((n + 1) % 256) as u8, (3 - (n + 1) / 256) as u8)
  {
  }

  /** The countdown, started at cnt 0 and count_down 3, completes on
      exactly its 768th poll, whatever the buttons do. */
  lemma {:induction false} ReadyLasts768(n: nat, ss: seq<bv8>, random: u8)
    requires n < 768 && n + |ss| <= 768
    ensures n + |ss| < 768 ==>
      Run(GReady((n % 256) as u8, (3 - n / 256) as u8), ss, random) ==
      GReady(((n + |ss|) % 256) as u8, (3 - (n + |ss|) / 256) as u8)
    ensures n + |ss| == 768 ==>
      Run(GReady((n % 256) as u8, (3 - n / 256) as u8), ss, random) == GPlaying(StartBits(random), INIT_CNT)
    decreases |ss|
  {
    if ss != [] {
      CountdownStep(n, ss[0], random);
      if n + 1 < 768 {
        ReadyLasts768(n + 1, ss[1..], random);
      } else {
        assert ss[1..] == [];
      }
    }
  }

  /** The result phase cannot restart the game in its first 255 polls,
      whatever the buttons do. */
  lemma {:induction false} ResultWaits(c: nat, w: Players, ss: seq<bv8>, random: u8)
    requires c + |ss| <= LegacyS3Result.ONE_SEC
    ensures Run(GResult(c as u16, w), ss, random) == GResult((c + |ss|) as u16, w)
    decreases |ss|
  {
    if ss != [] {
      ResultWaits(c + 1, w, ss[1..], random);
    }
  }

  /** `Game`: the phase, and the dot of the Idle and Playing variants. The
      firmware stores the dot inline in those variants, so the model gives
      the game one `DotState` object, updated in place by the steps and set
      afresh by `start_game`. */
  class Game {
    var phase: Phase
    const dot: DotState

    /** The game and its dot; the same set in every state. */
    function Objs(): set<object> {
      {this, dot}
    }

    function View(): GameView
      reads this, Objs()
    {
      match phase
      case IdleAnimation(cnt) => GIdle(dot.bits, cnt)
      case ReadyAnimation(c, cd) => GReady(c, cd)
      case Playing(cnt) => GPlaying(dot.bits, cnt)
      case Result(c, w) => GResult(c, w)
    }

    predicate Valid()
      reads this, Objs()
    {
      ViewValid(View())
    }

    /** `Game::new`: idle, counter at `INIT_CN`, a new dot. */
    constructor New()
      ensures Valid() && View() == GIdle(START, INIT_CN)
      ensures fresh(dot)
    {
      dot := new DotState();
      phase := IdleAnimation(INIT_CN);
    }

    /** `poll`: reset the tick event if the RTC is there; step only if the
        device is. */
    method Poll(rtc: Option<Rtc>, device: Option<Device>, random: u8)
      requires Valid() && (device.Some? ==> device.value.Valid())
      modifies Objs(), if rtc.Some? then {rtc.value} else {}
      modifies if device.Some? then device.value.Parts() else {}
      ensures Valid()
      ensures rtc.Some? ==> !rtc.value.tickEvent
      ensures device.None? ==> View() == old(View())
      ensures device.Some? ==> Stepped(device.value, old(View()), old(device.value.buttons.state),
        old(device.value.display.log), old(device.value.sound.View()), old(device.value.sound.ops), random)

    {
      if rtc.Some? {
        rtc.value.ResetTick();
      }
      if device.Some? {
        assert rtc.Some? ==> rtc.value !in Objs() + device.value.Objs();
        Step(device.value, random);
      }
    }

    /** The state after one phase step from view `v`, tracker byte `s`,
        display log `log`, sequencer view `av` and PWM log `ops`. */
    predicate Stepped(device: Device, v: GameView, s: bv8, log: seq<Effect>, av: AudioView, ops: seq<PwmOp>, random: u8)
      reads this, Objs(), device, device.Objs()
      requires ViewValid(v)
    {
      && device.Valid()
      && View() == NextView(v, s, random)
      && device.buttons.state == NextButtons(v, s, random)
      && device.display.log == log + PollEffects(v, s)
      && device.sound.View() == PlayAllView(av, PollTracks(v, s))
      && device.sound.ops == ops + PlayAllOps(av, PollTracks(v, s))
    }

    /** The `match self` of `poll`. */
    method Step(device: Device, random: u8)
      requires Valid() && device.Valid()
      modifies Objs(), device.Parts()
      ensures Valid()
      ensures Stepped(device, old(View()), old(device.buttons.state),
        old(device.display.log), old(device.sound.View()), old(device.sound.ops), random)
    {
      match phase
      case IdleAnimation(_) => IdleStep(device, random);
      case ReadyAnimation(_, _) => ReadyStep(device, random);
      case Playing(_) => PlayingStep(device, random);
      case Result(_, _) => ResultStep(device, random);
    }

    method IdleStep(device: Device, random: u8)
      requires Valid() && device.Valid() && phase.IdleAnimation?
      modifies Objs(), device.Parts()
      ensures Valid()
      ensures Stepped(device, old(View()), old(device.buttons.state),
        old(device.display.log), old(device.sound.View()), old(device.sound.ops), random)
    {
      var cnt := phase.cnt;
      var next, started := S0Idle.IdleAnimation(cnt, dot, device.buttons.IsBothPressed(), device.display);
      if started {
        EnterReady(device.buttons);
      } else {
        phase := IdleAnimation(next);
      }
    }

    method ReadyStep(device: Device, random: u8)
      requires Valid() && device.Valid() && phase.ReadyAnimation?
      modifies Objs(), device.Parts()
      ensures Valid()
      ensures Stepped(device, old(View()), old(device.buttons.state),
        old(device.display.log), old(device.sound.View()), old(device.sound.ops), random)
    {
      var c, cd := phase.readyCnt, phase.countDown;
      ghost var v0, s0 := View(), device.buttons.state;
      ghost var av0, ops0 := device.sound.View(), device.sound.ops;
      ghost var log0 := device.display.log;
      var nc, ncd, done := S1Ready.ReadyAnimation(c, cd, device.display, device.sound);
      ghost var beep := if c == 0 then [DI_LO] else [];
      assert device.sound.View() == PlayAllView(av0, beep);
      assert device.sound.ops == ops0 + PlayAllOps(av0, beep);
      if done {
        BeginGame(device, v0, s0, log0, av0, ops0, beep, random);
      } else {
        KeepCounting(nc, ncd, device, v0, s0, log0, av0, ops0, beep, random);
      }
    }

    method PlayingStep(device: Device, random: u8)
      requires Valid() && device.Valid() && phase.Playing?
      modifies Objs(), device.Parts()
      ensures Valid()
      ensures Stepped(device, old(View()), old(device.buttons.state),
        old(device.display.log), old(device.sound.View()), old(device.sound.ops), random)
    {
      var cnt := phase.cnt;
      ghost var v0, s0 := View(), device.buttons.state;
      ghost var av0, ops0 := device.sound.View(), device.sound.ops;
      ghost var log0 := device.display.log;
      var next, winner := S2Game.Game(cnt, dot, device.buttons.IsLastA(), device.display);
      if winner.Some? {
        EndGame(winner.value, device, v0, s0, log0, random);
      } else {
        KeepPlaying(next, device, v0, s0, log0, av0, ops0, random);
      }
    }

    method ResultStep(device: Device, random: u8)
      requires Valid() && device.Valid() && phase.Result?
      modifies Objs(), device.Parts()
      ensures Valid()
      ensures Stepped(device, old(View()), old(device.buttons.state),
        old(device.display.log), old(device.sound.View()), old(device.sound.ops), random)
    {
      var c, w := phase.resultCnt, phase.winner;
      var next, again := LegacyS3Result.ResultAnimation(c, w, device.buttons, device.display);
      if again {
        EnterReady(device.buttons);
      } else {
        phase := Result(next, w);
      }
    }

    /** What a countdown step that does not end the countdown leaves. */
    static lemma CountingStep(v0: GameView, s0: bv8, nc: u8, ncd: u8, beep: seq<seq<Note>>, random: u8)
      requires v0.GReady? && 1 <= v0.countDown <= COUNT_FROM
      requires (nc, ncd) == ReadyCounters(v0.readyCnt, v0.countDown) && ncd != 0
      requires beep == if v0.readyCnt == 0 then [DI_LO] else []
      ensures NextView(v0, s0, random) == GReady(nc, ncd) && NextButtons(v0, s0, random) == s0
      ensures PollTracks(v0, s0) == beep
    {
      assert !StepDone(v0, s0);
    }

    /** A countdown step that does not end the countdown. */
    method KeepCounting(nc: u8, ncd: u8, device: Device, ghost v0: GameView, ghost s0: bv8, ghost log0: seq<Effect>,
                        ghost av0: AudioView, ghost ops0: seq<PwmOp>, ghost beep: seq<seq<Note>>, random: u8)
      requires device.Valid() && v0.GReady? && 1 <= v0.countDown <= COUNT_FROM
      requires (nc, ncd) == ReadyCounters(v0.readyCnt, v0.countDown) && ncd != 0
      requires beep == if v0.readyCnt == 0 then [DI_LO] else []
      requires device.buttons.state == s0 && device.display.log == log0 + PollEffects(v0, s0)
      requires device.sound.View() == PlayAllView(av0, beep) && device.sound.ops == ops0 + PlayAllOps(av0, beep)
      modifies this
      ensures Valid()
      ensures Stepped(device, v0, s0, log0, av0, ops0, random)
    {
      CountingStep(v0, s0, nc, ncd, beep, random);
      phase := ReadyAnimation(nc, ncd);
      assert View() == NextView(v0, s0, random);
    }

    /** A playing step without a winner. */
    method KeepPlaying(next: i8, device: Device, ghost v0: GameView, ghost s0: bv8,
                       ghost log0: seq<Effect>, ghost av0: AudioView, ghost ops0: seq<PwmOp>, random: u8)
      requires phase.Playing?
      requires device.Valid() && v0.GPlaying? && Pos(v0.bits) <= RIGHT
      requires GameWinner(v0.cnt, v0.bits, LegacyButtons.LastA(s0)).None?
      requires dot.bits == GameDot(v0.cnt, v0.bits, LegacyButtons.LastA(s0)) && next == GameCnt(v0.cnt, v0.bits, LegacyButtons.LastA(s0))
      requires device.buttons.state == s0 && device.display.log == log0 + PollEffects(v0, s0)
      requires device.sound.View() == av0 && device.sound.ops == ops0
      modifies this
      ensures Valid()
      ensures Stepped(device, v0, s0, log0, av0, ops0, random)
    {
      assert !StepDone(v0, s0) && PollTracks(v0, s0) == [];
      assert NextView(v0, s0, random) == GPlaying(dot.bits, next);
      phase := Phase.Playing(next);
    }

    /** What the countdown step that ends the countdown leaves. */
    static lemma BeginStep(v0: GameView, s0: bv8, beep: seq<seq<Note>>, random: u8)
      requires v0.GReady? && 1 <= v0.countDown <= COUNT_FROM
      requires ReadyCounters(v0.readyCnt, v0.countDown).1 == 0
      requires beep == if v0.readyCnt == 0 then [DI_LO] else []
      ensures NextView(v0, s0, random) == GPlaying(StartBits(random), INIT_CNT)
      ensures NextButtons(v0, s0, random) == 0
      ensures PollTracks(v0, s0) == beep + [DI_HI]
    {
      assert StepDone(v0, s0);
    }

    /** The arm of `poll` that ends the countdown: enter Playing. */
    method BeginGame(device: Device, ghost v0: GameView, ghost s0: bv8, ghost log0: seq<Effect>,
                     ghost av0: AudioView, ghost ops0: seq<PwmOp>, ghost beep: seq<seq<Note>>, random: u8)
      requires device.Valid() && v0.GReady? && 1 <= v0.countDown <= COUNT_FROM
      requires ReadyCounters(v0.readyCnt, v0.countDown).1 == 0
      requires beep == if v0.readyCnt == 0 then [DI_LO] else []
      requires device.buttons.state == s0 && device.display.log == log0 + PollEffects(v0, s0)
      requires device.sound.View() == PlayAllView(av0, beep) && device.sound.ops == ops0 + PlayAllOps(av0, beep)
      modifies Objs(), device.Parts()
      ensures Valid()
      ensures Stepped(device, v0, s0, log0, av0, ops0, random)
    {
      BeginStep(v0, s0, beep, random);
      StartGame(random, device);
      PlayOneMore(av0, beep, DI_HI);
      assert View() == NextView(v0, s0, random);
      assert device.sound.View() == PlayAllView(av0, PollTracks(v0, s0));
      assert device.sound.ops == ops0 + PlayAllOps(av0, PollTracks(v0, s0));
    }

    /** The winner arm of `poll`: enter Result. */
    method EndGame(winner: Players, device: Device, ghost v0: GameView, ghost s0: bv8, ghost log0: seq<Effect>, random: u8)
      requires device.Valid() && v0.GPlaying? && Pos(v0.bits) <= RIGHT
      requires GameWinner(v0.cnt, v0.bits, LegacyButtons.LastA(s0)) == Some(winner)
      requires device.buttons.state == s0 && device.display.log == log0 + PollEffects(v0, s0)
      modifies this, device.Parts()
      ensures Valid()
      ensures Stepped(device, v0, s0, log0, old(device.sound.View()), old(device.sound.ops), random)
    {
      assert StepDone(v0, s0) && NextView(v0, s0, random) == GResult(0, winner);
      assert PollTracks(v0, s0) == [PEPPA];
      ghost var av0 := device.sound.View();
      EnterResult(winner, device);
      PlayOneMore(av0, [], PEPPA);
      assert [] + [PEPPA] == [PEPPA];
    }

    /** `ready_animation` (the constructor of the phase): reset the buttons,
        counters at 0 and 3. */
    method EnterReady(buttons: LegacyButtons.ButtonState)
      modifies this, buttons
      ensures phase == ReadyAnimation(0, COUNT_FROM) && buttons.state == 0
    {
      buttons.Reset();
      phase := ReadyAnimation(0, COUNT_FROM);
    }

    /** `start_game`: reset the buttons, the dot set afresh and toggled
        when the random byte is at most 127, `DI_HI`, counter at
        `INIT_CNT`. */
    method StartGame(random: u8, device: Device)
      requires device.Valid()
      modifies Objs(), device.Parts()
      ensures phase.Playing? && dot.bits == StartBits(random) && phase.cnt == INIT_CNT
      ensures device.buttons.state == 0 && device.display.log == old(device.display.log)
      ensures device.Valid()
      ensures device.sound.View() == PlayTrackView(old(device.sound.View()), DI_HI)
      ensures device.sound.ops == old(device.sound.ops) + PlayTrackOps(old(device.sound.View()), DI_HI)
    {
      device.buttons.Reset();
      dot.bits := START; // the `DotState::new()` moved into the variant
      if random <= 127 {
        dot.ToggleClockwise();
      }
      device.sound.PlayTrack(DI_HI);
      phase := Phase.Playing(INIT_CNT);
    }

    /** `result`: reset the buttons, `PEPPA`, counter at 0. */
    method EnterResult(winner: Players, device: Device)
      requires device.Valid()
      modifies this, device.Parts()
      ensures phase == Result(0, winner)
      ensures device.buttons.state == 0 && device.display.log == old(device.display.log)
      ensures device.Valid()
      ensures device.sound.View() == PlayTrackView(old(device.sound.View()), PEPPA)
      ensures device.sound.ops == old(device.sound.ops) + PlayTrackOps(old(device.sound.View()), PEPPA)
    {
      device.buttons.Reset();
      device.sound.PlayTrack(PEPPA);
      phase := Result(0, winner);
    }
  }
}
