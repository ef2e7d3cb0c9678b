/** The audio sequencer of `tug-of-war/src/sound.rs`. A `Sound` is in one
    of three states: the speaker pin disconnected, idle (pin attached to the
    PWM generator, no track), or playing a track. `play_track` and the
    LOOPS_DONE handler drive it with loops over private transitions. The
    PWM peripheral is an effector: every call the sequencer makes on it is
    appended to `ops`. */
module Sound {
  import opened Common
  import opened Notes

  const SAMPLE_FREQ: nat := 62500

  /** `loops`: how many times one period of `sampleLen` samples is
      repeated to last `tMs` milliseconds at 62.5 kHz, at least once, cast
      to `u16`. The `u32` arithmetic cannot overflow (`LoopsNoU32Overflow`);
      the cast truncates when the quotient does not fit in 16 bits. */
  function Loops(tMs: u16, sampleLen: nat): (r: u16)
    requires 0 < sampleLen
    ensures tMs * SAMPLE_FREQ < 1000 * sampleLen ==> r == 1
    ensures var q := tMs * SAMPLE_FREQ / 1000 / sampleLen; 1 <= q < 0x1_0000 ==> r == q
  {
    var q := tMs * SAMPLE_FREQ / 1000 / sampleLen;
    FloorBounds(tMs * SAMPLE_FREQ, sampleLen);
    (if q < 1 then 1 else q) % 0x1_0000
  }

  /** When the cast does not truncate, the repeats last the note's
      duration to within one period. */
  lemma LoopsWithinPeriod(tMs: u16, sampleLen: nat)
    requires 0 < sampleLen
    requires 1 <= tMs * SAMPLE_FREQ / 1000 / sampleLen < 0x1_0000
    ensures var r := Loops(tMs, sampleLen);
      r * sampleLen * 1000 <= tMs * SAMPLE_FREQ < (r + 1) * sampleLen * 1000
  {
    FloorBounds(tMs * SAMPLE_FREQ, sampleLen);
  }

  /** `x / 1000 / l` is the number of whole periods of `l * 1000` in `x`,
      and it is 0 exactly when `x` is shorter than one period. */
  lemma FloorBounds(x: nat, l: nat)
    requires 0 < l
    ensures var q := x / 1000 / l; q * l * 1000 <= x < (q + 1) * l * 1000
    ensures x < 1000 * l ==> x / 1000 / l == 0
  {
    var y := x / 1000;
    var q := y / l;
    var m := q * l;
    assert y * 1000 <= x < y * 1000 + 1000;
    assert m <= y < m + l;
    assert m * 1000 <= y * 1000;
    assert (y + 1) * 1000 <= (m + l) * 1000;
    assert (q + 1) * l == m + l;
    if q >= 1 {
      assert q * l == (q - 1) * l + l;
      assert m >= l;
    }
  }

  /** The widest product `loops` forms fits in `u32`. */
  lemma LoopsNoU32Overflow(tMs: u16)
    ensures tMs * SAMPLE_FREQ < 0x1_0000_0000
  {
  }

  /** The `as u16` cast does truncate for long enough notes: 2098 ms of the
      2-sample silence asks for 65562 repeats and gets 26. */
  lemma LoopsTruncates()
    ensures 2098 * SAMPLE_FREQ / 1000 / SampleLen(SI) == 65562
    ensures Loops(2098, SampleLen(SI)) == 26
  {
  }

  /** Every note of the shipped tracks keeps its repeat count below 2^16,
      so the cast never truncates and every note lasts within one period of
      its duration. */
  lemma ShippedNotesFit(n: Note)
    requires n in DI_LO || n in DI_HI || n in PEPPA
    ensures 1 <= n.ms * SAMPLE_FREQ / 1000 / SampleLen(n.wave) < 0x1_0000
    ensures Loops(n.ms, SampleLen(n.wave)) * SampleLen(n.wave) * 1000 <= n.ms * SAMPLE_FREQ
      < (Loops(n.ms, SampleLen(n.wave)) + 1) * SampleLen(n.wave) * 1000
  {
    assert n.ms <= 800;
    LoopsWithinPeriod(n.ms, SampleLen(n.wave));
  }

  /** The calls the sequencer makes on the PWM peripheral. `Load` records
      the waveform and where `split_at(len / 2)` cuts it into the two
      buffers it loads. */
  datatype PwmOp =
    | ResetLoopsDone
    | Stop
    | Disable
    | Enable
    | SetOutputPin
    | ClearOutputPin
    | Repeat(loops: u16)
    | Load(wave: Waveform, split: nat)

  /** `stop`: halt, disable and re-enable the generator. */
  const STOP_OPS: seq<PwmOp> := [Stop, Disable, Enable]
  /** `connect`: attach the speaker pin and enable. */
  const CONNECT_OPS: seq<PwmOp> := [SetOutputPin, Enable]
  /** `disconnect`: disable and detach the speaker pin. */
  const DISCONNECT_OPS: seq<PwmOp> := [Disable, ClearOutputPin]

  /** `play_note`: set the repeat count, then load both halves. */
  function NoteOps(n: Note): (ops: seq<PwmOp>)
    ensures |ops| == 2 && ops[1].Load? && ops[1].wave == n.wave
    ensures ops[1].split + ops[1].split <= SampleLen(n.wave) <= ops[1].split + ops[1].split + 1
  {
    [Repeat(Loops(n.ms, SampleLen(n.wave))), Load(n.wave, SampleLen(n.wave) / 2)]
  }

  /** The waveforms loaded by a run of PWM calls, in order. */
  function Loaded(ops: seq<PwmOp>): seq<Waveform>
    decreases |ops|
  {
    if |ops| == 0 then []
    else (if ops[0].Load? then [ops[0].wave] else []) + Loaded(ops[1..])
  }

  lemma {:induction false} LoadedAppend(a: seq<PwmOp>, b: seq<PwmOp>)
    ensures Loaded(a + b) == Loaded(a) + Loaded(b)
    decreases |a|
  {
    if |a| > 0 {
      assert (a + b)[1..] == a[1..] + b;
      LoadedAppend(a[1..], b);
    } else {
      assert a + b == b;
    }
  }

  /** The waveforms of a run of notes. */
  function Waves(notes: seq<Note>): seq<Waveform>
    decreases |notes|
  {
    if |notes| == 0 then [] else [notes[0].wave] + Waves(notes[1..])
  }

  /** The sequencer's state, as a value. */
  datatype AudioView = VDisconnected | VIdle | VPlaying(notes: seq<Note>, position: nat)

  /** The state after `play_track(notes)`: always playing the new track,
      with its first note (if any) started. Idle is never left behind. */
  function PlayTrackView(v: AudioView, notes: seq<Note>): (r: AudioView)
    ensures r.VPlaying? && r.notes == notes
    ensures r.position == if |notes| == 0 then 0 else 1
  {
    VPlaying(notes, if |notes| == 0 then 0 else 1)
  }

  /** The PWM calls of `play_track(notes)`: stop if playing, connect if
      disconnected, then the first note. */
  function PlayTrackOps(v: AudioView, notes: seq<Note>): seq<PwmOp> {
    (if v.VPlaying? then STOP_OPS else [])
      + (if v.VDisconnected? then CONNECT_OPS else [])
      + (if |notes| == 0 then [] else NoteOps(notes[0]))
  }

  /** The state after one LOOPS_DONE interrupt. */
  function InterruptView(v: AudioView): (r: AudioView)
    ensures !r.VIdle?
    ensures v.VDisconnected? || v.VIdle? ==> r.VDisconnected?
    ensures v.VPlaying? && v.position < |v.notes| ==> r == VPlaying(v.notes, v.position + 1)
    ensures v.VPlaying? && v.position >= |v.notes| ==> r.VDisconnected?
  {
    match v
    case VDisconnected => VDisconnected
    case VIdle => VDisconnected
    case VPlaying(notes, p) => if p < |notes| then VPlaying(notes, p + 1) else VDisconnected
  }

  /** The PWM calls of one LOOPS_DONE interrupt: clear the event, then the
      next note, or stop and disconnect once the track is exhausted. */
  function InterruptOps(v: AudioView): seq<PwmOp> {
    [ResetLoopsDone] +
    match v
    case VDisconnected => []
    case VIdle => DISCONNECT_OPS
    case VPlaying(notes, p) => if p < |notes| then NoteOps(notes[p]) else STOP_OPS + DISCONNECT_OPS
  }

  /** `play_track` stops a playing track before anything else, connects a
      disconnected sequencer first, and always ends by playing the first
      note. */
  lemma PlayTrackOpsOrder(v: AudioView, notes: seq<Note>)
    ensures v.VPlaying? ==> PlayTrackOps(v, notes)[..|STOP_OPS|] == STOP_OPS
    ensures v.VDisconnected? ==> PlayTrackOps(v, notes)[..|CONNECT_OPS|] == CONNECT_OPS
    ensures |notes| > 0 ==> var ops := PlayTrackOps(v, notes); |ops| >= 2 && ops[|ops| - 2..] == NoteOps(notes[0])
    ensures v.VIdle? && |notes| == 0 ==> PlayTrackOps(v, notes) == []
  {
  }

  /** The LOOPS_DONE handler always clears the event first; it does nothing
      more when disconnected, and an exhausted track is stopped and
      disconnected in the same call. */
  lemma InterruptOpsOrder(v: AudioView)
    ensures |InterruptOps(v)| >= 1 && InterruptOps(v)[0] == ResetLoopsDone
    ensures v.VDisconnected? ==> InterruptOps(v) == [ResetLoopsDone]
    ensures v.VPlaying? && v.position >= |v.notes| ==> InterruptOps(v) == [ResetLoopsDone] + STOP_OPS + DISCONNECT_OPS
  {
  }

  /** `n` LOOPS_DONE interrupts in a row. */
  function Interrupts(v: AudioView, n: nat): AudioView
    decreases n
  {
    if n == 0 then v else Interrupts(InterruptView(v), n - 1)
  }

  function InterruptsOps(v: AudioView, n: nat): seq<PwmOp>
    decreases n
  {
    if n == 0 then [] else InterruptOps(v) + InterruptsOps(InterruptView(v), n - 1)
  }

  /** One note loads exactly its waveform. */
  lemma NoteLoadsWave(n: Note)
    ensures Loaded(NoteOps(n)) == [n.wave]
  {
    var ops := NoteOps(n);
    assert ops == [ops[0], ops[1]] && !ops[0].Load?;
    assert ops[1..] == [ops[1]] && [ops[1]][1..] == [];
    assert Loaded([ops[1]]) == [ops[1].wave];
    assert Loaded(ops) == Loaded([ops[1]]);
  }

  /** One interrupt with notes left loads exactly the next note. */
  lemma InterruptLoadsNext(notes: seq<Note>, p: nat)
    requires p < |notes|
    ensures Loaded(InterruptOps(VPlaying(notes, p))) == [notes[p].wave]
  {
    var ops := NoteOps(notes[p]);
    assert InterruptOps(VPlaying(notes, p)) == [ResetLoopsDone] + ops;
    NoteLoadsWave(notes[p]);
    LoadedAppend([ResetLoopsDone], ops);
    assert [ResetLoopsDone][1..] == [];
  }

  /** A track playing at `p` is still playing after `k` interrupts while
      notes remain, and those interrupts load exactly the next `k` notes. */
  lemma {:induction false} InterruptsWhilePlaying(notes: seq<Note>, p: nat, k: nat)
    requires p + k <= |notes|
    ensures Interrupts(VPlaying(notes, p), k) == VPlaying(notes, p + k)
    ensures Loaded(InterruptsOps(VPlaying(notes, p), k)) == Waves(notes[p..p + k])
    decreases k
  {
    if k > 0 {
      InterruptsWhilePlaying(notes, p + 1, k - 1);
      var v := VPlaying(notes, p);
      var run := notes[p..p + k];
      InterruptLoadsNext(notes, p);
      assert run[0] == notes[p] && run[1..] == notes[p + 1..p + k];
      LoadedThenRest(InterruptOps(v), InterruptsOps(InterruptView(v), k - 1), run);
    } else {
      assert notes[p..p] == [];
    }
  }

  /** Once disconnected, further interrupts change nothing. */
  lemma {:induction false} DisconnectedStays(n: nat)
    ensures Interrupts(VDisconnected, n) == VDisconnected
    decreases n
  {
    if n > 0 {
      DisconnectedStays(n - 1);
    }
  }

  lemma {:induction false} InterruptsSplit(v: AudioView, m: nat, n: nat)
    ensures Interrupts(v, m + n) == Interrupts(Interrupts(v, m), n)
    decreases m
  {
    if m > 0 {
      InterruptsSplit(InterruptView(v), m - 1, n);
    }
  }

  /** The first note played by `play_track`, with the calls before it. */
  lemma PlayTrackLoadsFirst(v: AudioView, notes: seq<Note>)
    requires |notes| >= 1
    ensures Loaded(PlayTrackOps(v, notes)) == [notes[0].wave]
  {
    var ops := NoteOps(notes[0]);
    var pre := (if v.VPlaying? then STOP_OPS else []) + (if v.VDisconnected? then CONNECT_OPS else []);
    assert PlayTrackOps(v, notes) == pre + ops;
    assert Loaded(pre) == [] by {
      if v.VPlaying? {
        assert pre == [Stop, Disable, Enable];
        assert pre[1..] == [Disable, Enable] && pre[1..][1..] == [Enable] && pre[1..][1..][1..] == [];
      } else if v.VDisconnected? {
        assert pre == [SetOutputPin, Enable];
        assert pre[1..] == [Enable] && pre[1..][1..] == [];
      }
    }
    NoteLoadsWave(notes[0]);
    LoadedAppend(pre, ops);
  }

  /** After `play_track` of an `n`-note track (n >= 1), the sequencer is
      back in Disconnected after exactly `n` LOOPS_DONE interrupts, and is
      still playing after every earlier one. */
  lemma TrackLastsExactly(v: AudioView, notes: seq<Note>, k: nat)
    requires |notes| >= 1
    ensures k < |notes| ==> Interrupts(PlayTrackView(v, notes), k).VPlaying?
    ensures k >= |notes| ==> Interrupts(PlayTrackView(v, notes), k) == VDisconnected
  {
    var n := |notes|;
    assert PlayTrackView(v, notes) == VPlaying(notes, 1);
    if k < n {
      InterruptsWhilePlaying(notes, 1, k);
    } else {
      InterruptsWhilePlaying(notes, 1, n - 1);
      InterruptsSplit(VPlaying(notes, 1), n - 1, k - (n - 1));
      DisconnectedStays(k - n);
      assert Interrupts(VPlaying(notes, n), k - (n - 1)) == Interrupts(VDisconnected, k - n);
    }
  }

  /** Playing from note `p`, the interrupts until the last note is
      started load the rest of the track, in order; after `play_track`
      `p` is 1. */
  lemma {:induction false} InterruptsToEnd(v: AudioView, notes: seq<Note>, p: nat)
    requires v == VPlaying(notes, p) && p <= |notes|
    ensures Loaded(InterruptsOps(v, |notes| - p)) == Waves(notes[p..])
    decreases |notes| - p
  {
    if p < |notes| {
      InterruptsToEnd(InterruptView(v), notes, p + 1);
      LoadedAppend(InterruptOps(v), InterruptsOps(InterruptView(v), |notes| - p - 1));
      InterruptLoadsNext(notes, p);
      assert notes[p..][1..] == notes[p + 1..];
    }
  }

  /** The notes loaded by `play_track` and the interrupts that follow
      until the last note is started are the track's waveforms, in order. */
  lemma {:induction false} TrackPlaysInOrder(v: AudioView, notes: seq<Note>)
    requires |notes| >= 1
    ensures Loaded(PlayTrackOps(v, notes) + InterruptsOps(PlayTrackView(v, notes), |notes| - 1)) == Waves(notes)
  {
    InterruptsToEnd(PlayTrackView(v, notes), notes, 1);
    PlayTrackLoadsFirst(v, notes);
    LoadedThenRest(PlayTrackOps(v, notes), InterruptsOps(PlayTrackView(v, notes), |notes| - 1), notes);
  }

  /** Calls loading the first note, then calls loading the others in
      order, load the whole track in order. */
  lemma LoadedThenRest(first: seq<PwmOp>, rest: seq<PwmOp>, notes: seq<Note>)
    requires |notes| >= 1
    requires Loaded(first) == [notes[0].wave] && Loaded(rest) == Waves(notes[1..])
    ensures Loaded(first + rest) == Waves(notes)
  {
    LoadedAppend(first, rest);
  }

  /** The sequencer after `play_track` of each track in turn. */
  function PlayAllView(av: AudioView, ts: seq<seq<Note>>): AudioView
    decreases |ts|
  {
    if ts == [] then av else PlayAllView(PlayTrackView(av, ts[0]), ts[1..])
  }

  /** The PWM calls of `play_track` of each track in turn. */
  function PlayAllOps(av: AudioView, ts: seq<seq<Note>>): seq<PwmOp>
    decreases |ts|
  {
    if ts == [] then [] else PlayTrackOps(av, ts[0]) + PlayAllOps(PlayTrackView(av, ts[0]), ts[1..])
  }

  /** Playing one more track after `ts`. */
  lemma {:induction false} PlayOneMore(av: AudioView, ts: seq<seq<Note>>, t: seq<Note>)
    ensures PlayAllView(av, ts + [t]) == PlayTrackView(PlayAllView(av, ts), t)
    ensures PlayAllOps(av, ts + [t]) == PlayAllOps(av, ts) + PlayTrackOps(PlayAllView(av, ts), t)
    decreases |ts|
  {
    if ts == [] {
      assert [t][1..] == [];
    } else {
      assert (ts + [t])[1..] == ts[1..] + [t];
      PlayOneMore(PlayTrackView(av, ts[0]), ts[1..], t);
    }
  }

  /** `Track`: a track and the index of the next note, advanced in place.
      The firmware keeps it inline in the `Playing` variant, so the model
      gives each sequencer one `Track` object, reloaded by `Load` where the
      firmware moves a new `Track::new(notes)` into that variant. */
  class Track {
    var notes: seq<Note>
    var position: nat

    constructor ()
      ensures notes == [] && position == 0
    {
      notes := [];
      position := 0;
    }

    /** `Track::new`: the track with the cursor at its first note. */
    method Load(notes: seq<Note>)
      modifies this
      ensures this.notes == notes && position == 0
    {
      this.notes := notes;
      position := 0;
    }

    /** `next_note`: the note at the cursor, moving past it; `None`, with
        the cursor unchanged, once the track is exhausted. */
    method NextNote() returns (n: Option<Note>)
      modifies this
      ensures notes == old(notes)
      ensures old(position) < |notes| ==> n == Some(notes[old(position)]) && position == old(position) + 1
      ensures old(position) >= |notes| ==> n == None && position == old(position)
    {
      if position < |notes| {
        n := Some(notes[position]);
        position := position + 1;
      } else {
        n := None;
      }
    }
  }

  /** The variants of `AudioState`; the track of `Playing` is `Sound.track`. */
  datatype AudioState = Disconnected | Idle | Playing

  /** `Sound`. The speaker pin is owned by the PWM generator exactly when
      the state is not `Disconnected`; `SetOutputPin`/`ClearOutputPin` in
      `ops` record it moving. */
  class Sound {
    var state: AudioState
    var ops: seq<PwmOp>
    const track: Track

    /** The sequencer and the storage of its track; the same set in every
        state, so nothing a method does allocates into it. */
    function Objs(): set<object> {
      {this, track}
    }

    predicate Valid()
      reads this, Objs()
    {
      state.Playing? ==> track.position <= |track.notes|
    }

    function View(): AudioView
      reads this, Objs()
    {
      match state
      case Disconnected => VDisconnected
      case Idle => VIdle
      case Playing => VPlaying(track.notes, track.position)
    }

    /** `Sound::init` (which the mains call as `Sound::new`): disconnected,
        with no PWM call recorded yet. */
    constructor Init()
      ensures Valid() && View() == VDisconnected && ops == []
      ensures fresh(track)
    {
      state := Disconnected;
      ops := [];
      track := new Track();
    }

    /** `play_track`: stop a playing track, then loop through connect,
        set the track, and play its first note. */
    method PlayTrack(notes: seq<Note>)
      requires Valid()
      modifies Objs()
      ensures Valid()
      ensures View() == PlayTrackView(old(View()), notes)
      ensures ops == old(ops) + PlayTrackOps(old(View()), notes)
    {
      ghost var v0 := View();
      if state.Playing? {
        Stop();
      }
      ghost var ops1 := ops;
      ghost var wasDisconnected := state.Disconnected?;
      assert ops1 == old(ops) + (if v0.VPlaying? then STOP_OPS else []);
      while true
        invariant Valid()
        invariant state.Disconnected? ==> wasDisconnected && ops == ops1
        invariant state.Idle? ==> ops == ops1 + (if wasDisconnected then CONNECT_OPS else [])
        invariant state.Playing? ==>
          track.notes == notes && track.position == 0 &&
          ops == ops1 + (if wasDisconnected then CONNECT_OPS else [])
        invariant wasDisconnected <==> v0.VDisconnected?
        decreases if state.Disconnected? then 2 else if state.Idle? then 1 else 0
      {
        match state
        case Disconnected =>
          Connect();
        case Idle =>
          SetTrack(notes);
        case Playing =>
          var _ := PlayNextNote();
          break;
      }
    }

    /** The LOOPS_DONE handler: clear the event, then play the next note,
        or stop and disconnect once the track is exhausted; nothing when
        disconnected. */
    method HandleInterrupt()
      requires Valid()
      modifies Objs()
      ensures Valid()
      ensures View() == InterruptView(old(View()))
      ensures ops == old(ops) + InterruptOps(old(View()))
    {
      ops := ops + [ResetLoopsDone];
      ghost var v0 := View();
      ghost var ops0 := ops;
      while true
        invariant Valid()
        invariant state.Playing? ==> View() == v0 && ops == ops0
        invariant state.Idle? ==>
          (v0.VIdle? && ops == ops0) ||
          (v0.VPlaying? && v0.position >= |v0.notes| && ops == ops0 + STOP_OPS)
        invariant state.Disconnected? ==> v0.VDisconnected? && ops == ops0
        decreases if state.Playing? then 2 else if state.Idle? then 1 else 0
      {
        match state
        case Playing =>
          var done := PlayNextNote();
          if done {
            Stop();
          } else {
            break;
          }
        case Idle =>
          Disconnect();
          break;
        case Disconnected =>
          break;
      }
    }

    /** `set_track`: Idle to Playing the track from its first note; any
        other state is `unreachable!()`. */
    method SetTrack(notes: seq<Note>)
      requires state.Idle?
      modifies this, track
      ensures state.Playing? && track.notes == notes && track.position == 0
      ensures ops == old(ops)
    {
      track.Load(notes);
      state := Playing;
    }

    /** `stop`: Playing to Idle, dropping the track; otherwise
        `unreachable!()`. */
    method Stop()
      requires state.Playing?
      modifies this
      ensures state == Idle
      ensures ops == old(ops) + STOP_OPS
    {
      ops := ops + STOP_OPS;
      state := Idle;
    }

    /** `connect`: Disconnected to Idle, handing the speaker pin to the
        generator; otherwise `unreachable!()`. */
    method Connect()
      requires state.Disconnected?
      modifies this
      ensures state == Idle
      ensures ops == old(ops) + CONNECT_OPS
    {
      state := Idle;
      ops := ops + CONNECT_OPS;
    }

    /** `disconnect`: Idle to Disconnected, taking the pin back; otherwise
        `unreachable!()`. */
    method Disconnect()
      requires state.Idle?
      modifies this
      ensures state == Disconnected
      ensures ops == old(ops) + DISCONNECT_OPS
    {
      ops := ops + DISCONNECT_OPS;
      state := Disconnected;
    }

    /** `play_next_note`: loads the next note of the track and reports
        whether the track was already exhausted; `unreachable!()` unless
        playing. */
    method PlayNextNote() returns (done: bool)
      requires Valid() && state.Playing?
      modifies this, track
      ensures Valid() && state == old(state) && track.notes == old(track.notes)
      ensures done <==> old(track.position) == |track.notes|
      ensures View() == if done then old(View()) else VPlaying(track.notes, old(track.position) + 1)
      ensures ops == if done then old(ops) else old(ops) + NoteOps(track.notes[old(track.position)])
    {
      var note := track.NextNote();
      match note
      case Some(n) =>
        ops := ops + NoteOps(n);
        done := false;
      case None =>
        done := true;
    }
  }
}
