# micro:bit tug-of-war, modelled in Dafny

The firmware runs a two-player reaction game on a BBC micro:bit. Its 5x5
LED matrix shows a dot that travels along a 49-step spiral, two buttons
pull the dot towards their player, and a PWM sequencer plays short tracks.
The repository holds two revisions:

- the first one under `src/`, whose handlers share the device through
  `Option`s;
- the rewrite under `tug-of-war/`, whose statics are `embed-mutex` cells,
  with a new button tracker, a rewritten result phase and the `Sound`
  sequencer.

Everything runs from three interrupts. `RTC0` ticks at 256 Hz and polls the
game. `GPIOTE` records button edges. `PWM0` moves the sequencer to its next
note.

The model keeps the source's own form:

- The shared cell, the dot, the trackers, the sequencer, the game and the
  firmware are classes whose methods update their fields in place.
- Each class is specified against value-level functions: `Spiral.Advanced`,
  `Buttons.AfterInterrupt`, `Sound.PlayTrackView`/`InterruptView`,
  `TugGame.NextView`/`NextButtons` and the like.
- The properties the source promises are lemmas about those functions.
- The firmware allocates nothing after start-up. A `Track` lives inside
  the sequencer's `Playing` state and a `DotState` inside the game's Idle
  and Playing variants. So each sequencer owns one `Track` object and each
  game one `DotState` object; moving a new value into the variant is a
  reload of that object. Every class's `Objs()` is then the same set in
  every state, and only the constructors and start-up allocate.

The hardware is kept abstract in three ways:

- The LED matrix is a log of show/hide effects.
- The PWM peripheral is a log of the calls made on it.
- Pin levels, latched events and the random byte are inputs of the
  handlers.

Files, one module each:

| file | module | models |
|---|---|---|
| `common.dfy` | `Common` | fixed-width helpers, `Option`, the RTC tick event and the GPIOTE events |
| `display.dfy` | `Display` | `src/display.rs` as a log of effects |
| `spiral.dfy` | `Spiral` | `src/spiral.rs`: the path table and the packed `DotState` byte |
| `buttons.dfy` | `Buttons` | `tug-of-war/src/buttons.rs` |
| `legacy_buttons.dfy` | `LegacyButtons` | `src/buttons.rs` (inverted `last_a` polarity) |
| `notes.dfy`, `sound.dfy` | `Notes`, `Sound` | the track lengths of `tug-of-war/src/notes.rs` and the sequencer of `tug-of-war/src/sound.rs` |
| `s0_idle.dfy` … `s2_game.dfy` | `S0Idle`, `S1Ready`, `S2Game` | the phase steps under `src/game/` |
| `legacy_s3_result.dfy`, `s3_result.dfy` | `LegacyS3Result`, `S3Result` | both revisions of the result phase |
| `legacy_game.dfy`, `tug_game.dfy` | `LegacyGame`, `TugGame` | both `game/mod.rs` dispatchers |
| `embed_mutex.dfy` | `EmbedMutex` | `embed-mutex/src/lib.rs` |
| `legacy_firmware.dfy`, `tug_firmware.dfy` | `LegacyFirmware`, `TugFirmware` | both `main.rs` files: statics, start-up and the three handlers |

Fixed-width arithmetic is written out:

- The tracker and dot bytes are `bv8`.
- The `i8` counters are kept in range explicitly.
- `u16` counters wrap modulo 2^16.

A debug build would panic on overflow in two places. The model takes the
release build's wrapping in both:

- `next` from index 0 counter-clockwise computes -129, as
  `Spiral.LeftEndCounterClockwiseLeavesI8` and `S2Game.AWinLeavesI8` show;
- the first revision's `*cnt += 1` on the `u16` result counter overflows at 65535.

The `as u16` cast in `loops` silently truncates a large quotient, as
`Sound.LoopsTruncates` shows.

Where the revisions disagree with each other, the model chooses as follows:

- The `Result` counter is a `u16`, as both `s3_result` functions take it,
  although both `Game` enums declare a `u8`. With a `u8`, the `> 255` test
  could never hold.
- `tug-of-war/src/game/mod.rs` passes `one_sec` to a step that takes no
  such argument. The model keeps the field, sets it false on entry and
  never reads it.
- `src/buttons.rs` has no `reset`, although `src/game/mod.rs` calls it.
  `LegacyButtons.ButtonState.Reset` clears the byte, as the rewrite's
  `reset` does.
- Both mains call `Sound::new`, but `tug-of-war/src/sound.rs` defines
  `init`. The constructor `Sound.Sound.Init` stands for both.
- `tug-of-war/src/game/s0_idle.rs`, `s1_ready.rs`, `s2_game.rs`,
  `tug-of-war/src/spiral.rs` and `tug-of-war/src/display.rs` are not part
  of this model. The rewrite's dispatcher is composed with the `src/`
  versions of those steps.
- Both dispatchers drive the rewrite's `Sound` sequencer. `src/sound.rs` is
  not part of this model.

## Model

| member | source | states |
|---|---|---|
| Common.WrappingIncU16 | tug-of-war/src/game/s3_result.rs:31 | `wrapping_add(1)` on a `u16`: one more below 0xFFFF, 0 at 0xFFFF |
| Common.Rtc.ResetTick | src/game/mod.rs:100-104 | the latched TICK event is cleared |
| Common.Gpiote.ResetEvents | src/main.rs:169 | both GPIOTE channel events are cleared |
| Common.Rtc.constructor | src/main.rs:76-79 | a new RTC has no TICK event pending |
| Common.Gpiote.constructor | src/main.rs:105 | a new GPIOTE has neither channel event latched |
| Display.DisplayPins.constructor | src/main.rs:123 | nothing has been drawn on new display pins |
| Display.DisplayPins.DisplayPx | src/display.rs:4-7 | a pixel on the 5x5 matrix is lit: exactly one `ShowPx` entry is appended to the log |
| Display.DisplayPins.UndisplayPx | src/display.rs:9-13 | a pixel is put out: exactly one `HidePx` entry is appended |
| Display.DisplayPins.DisplayCol | src/display.rs:15-24 | a column below 5 is lit with its row code: exactly one `ShowCol` entry is appended |
| Display.DisplayPins.UndisplayCol | src/display.rs:26-29 | a column below 5 is put out: exactly one `HideCol` entry is appended |
| Spiral.TableFacts | src/spiral.rs:2-59 | the table has 49 entries, all on the matrix; index 24 is (0, 2); the centre (2, 2) is at index 0 and index 48 and nowhere else |
| Spiral.Pos | src/spiral.rs:110-113 | the index bits are below 64 |
| Spiral.Toggled | src/spiral.rs:99-102 | `toggle_clockwise` flips the direction and keeps the index |
| Spiral.Advanced | src/spiral.rs:104-108 | `next` moves the index one up when clockwise and one down otherwise, keeping the direction |
| Spiral.SpiralStep | src/spiral.rs:81-87 | the byte after one `spiral` call: away from the endpoints the callback is not applied and the dot moves one index in its current direction, keeping that direction |
| Spiral.PxOf | src/spiral.rs:70-74 | the coordinate looked up is on the matrix, and it is the centre exactly at the two endpoints |
| Spiral.Mk | src/spiral.rs:4-6 | packing an index below 64 and a direction gives a byte whose `pos` and `is_clockwise` read them back |
| Spiral.I8 | src/spiral.rs:62 | the byte read as a two's-complement `i8` |
| Spiral.IdleSpiralKeepsInv | src/spiral.rs:76-87 | with a callback that toggles the direction, a `spiral` call keeps the index in 0..48 and never leaves an endpoint pointing off the path |
| Spiral.InnerStepStaysOnPath | src/spiral.rs:81-87 | strictly inside the path the callback is not called and one step moves one index in the current direction, staying on the path |
| Spiral.LeftEndCounterClockwiseLeavesI8 | src/spiral.rs:105-108 | at index 0 going counter-clockwise, the `i8` subtraction in `next` computes a value below -128, so a debug build panics |
| Spiral.WalkSplit | src/spiral.rs:81-87 | `m + n` toggling `spiral` calls are `m` calls followed by `n` calls |
| Spiral.WalkUp | src/spiral.rs:81-87 | clockwise from index `p >= 1`, `k` calls reach index `p + k` while that stays at most 48 |
| Spiral.StepUp | src/spiral.rs:81-87 | one clockwise call strictly inside the path moves to the next index |
| Spiral.StepDown | src/spiral.rs:81-87 | one counter-clockwise call strictly inside the path moves to the previous index |
| Spiral.WalkDown | src/spiral.rs:81-87 | counter-clockwise from index `p < 48`, `k <= p` calls reach index `p - k` |
| Spiral.IdleOrbit | src/game/s0_idle.rs:46-51 | from the start the toggling dot is at index 24 going counter-clockwise after 48 calls, and back at the start byte after 96 |
| Spiral.DotState.constructor | src/spiral.rs:65-68 | a new dot is at index 24, clockwise, on path coordinate (0, 2) |
| Spiral.DotState.Px | src/spiral.rs:70-74 | `px` yields a coordinate on the matrix |
| Spiral.DotState.IsLeft | src/spiral.rs:90-92 | holds iff the index is 0; the dot is then at an endpoint, on the centre |
| Spiral.DotState.IsClockwise | src/spiral.rs:95-97 | the direction `next` follows: when it holds the index goes one up, otherwise one down |
| Spiral.DotState.ToggleClockwise | src/spiral.rs:99-102 | the direction flips and the index stays |
| Spiral.DotState.Next | src/spiral.rs:104-108 | the byte becomes the advanced byte |
| Spiral.DotState.Spiral | src/spiral.rs:81-87 | the callback is handed the byte exactly when the index is 0 or 48, and the dot then always moves once |
| Buttons.WithLastA | tug-of-war/src/buttons.rs:57-60 | `set_last_a` makes `last_a` true and changes neither `both_pressed` nor the unused bits |
| Buttons.WithLastB | tug-of-war/src/buttons.rs:62-65 | `set_last_b` makes `last_a` false and changes neither `both_pressed` nor the unused bits |
| Buttons.WithBothPressed | tug-of-war/src/buttons.rs:67-70 | `set_both_pressed` makes `both_pressed` true and keeps `last_a` |
| Buttons.BothPressed | tug-of-war/src/buttons.rs:43-45 | `both_pressed`: bit 1 of the state byte is set |
| Buttons.LastA | tug-of-war/src/buttons.rs:48-50 | `last_a`: bit 0 of the state byte is set |
| Buttons.AfterInterrupt | tug-of-war/src/buttons.rs:72-94 | a channel-0 event records A, and a both-press iff B is low; a channel-1 event is only looked at without a channel-0 event and records B, and a both-press iff A is low; with no event the byte is unchanged |
| Buttons.BothPressedSticky | tug-of-war/src/buttons.rs:67-70 | once `both_pressed` holds, no run of interrupts clears it |
| Buttons.BothPressedExactly | tug-of-war/src/buttons.rs:72-94 | after a run of interrupts, `both_pressed` holds iff it held before or some interrupt recorded an edge while the other button was low |
| Buttons.ButtonState.constructor | tug-of-war/src/buttons.rs:19-40 | a new tracker has state 0: neither flag is set |
| Buttons.ButtonState.Reset | tug-of-war/src/buttons.rs:52-55 | state 0: both flags cleared |
| Buttons.ButtonState.IsBothPressed | tug-of-war/src/buttons.rs:43-45 | `both_pressed()` reads `BothPressed` of the current byte |
| Buttons.ButtonState.IsLastA | tug-of-war/src/buttons.rs:48-50 | `last_a()` reads `LastA` of the current byte |
| Buttons.ButtonState.SetLastA | tug-of-war/src/buttons.rs:57-60 | the byte becomes `WithLastA` of the old byte |
| Buttons.ButtonState.SetLastB | tug-of-war/src/buttons.rs:62-65 | the byte becomes `WithLastB` of the old byte |
| Buttons.ButtonState.SetBothPressed | tug-of-war/src/buttons.rs:67-70 | the byte becomes `WithBothPressed` of the old byte |
| Buttons.ButtonState.HandleInterrupt | tug-of-war/src/buttons.rs:72-94 | the byte follows `AfterInterrupt` on the latched events and pin levels, and only the event of the channel examined is cleared |
| LegacyButtons.WithLastA | src/buttons.rs:32-35 | `set_last_a` clears bit 0, so `last_a()` is true; `both_pressed` and the unused bits stay |
| LegacyButtons.WithLastB | src/buttons.rs:37-40 | `set_last_b` sets bit 0, so `last_a()` is false; `both_pressed` and the unused bits stay |
| LegacyButtons.WithBothPressed | src/buttons.rs:22-25 | `set_both_pressed` makes `both_pressed` true and keeps `last_a` |
| LegacyButtons.BothPressed | src/buttons.rs:28-30 | `both_pressed`: bit 1 of the state byte is set |
| LegacyButtons.LastA | src/buttons.rs:43-45 | `last_a`: bit 0 of the state byte is clear |
| LegacyButtons.PolarityInverted | src/buttons.rs:28-45 | on the same byte `both_pressed` agrees with the rewrite's and `last_a` is exactly the negation of the rewrite's |
| LegacyButtons.LastSetterDecides | src/buttons.rs:32-45 | after any run of setter calls, `last_a()` reflects whichever of `set_last_a`/`set_last_b` ran last, and is unchanged if neither ran |
| LegacyButtons.BothPressedSticky | src/buttons.rs:22-25 | after any run of setter calls, `both_pressed` holds iff it held before or `set_both_pressed` was called: nothing in the file clears it |
| LegacyButtons.ButtonState.constructor | src/buttons.rs:14-20 | a new tracker has state 0, so `last_a()` is true and `both_pressed()` is false |
| LegacyButtons.ButtonState.Reset | src/game/mod.rs:72-79 | the `reset` called on entering a phase: state 0 |
| LegacyButtons.ButtonState.IsBothPressed | src/buttons.rs:28-30 | `both_pressed()` reads `BothPressed` of the current byte |
| LegacyButtons.ButtonState.IsLastA | src/buttons.rs:43-45 | `last_a()` reads `LastA` of the current byte, with the inverted polarity |
| LegacyButtons.ButtonState.SetBothPressed | src/buttons.rs:22-25 | the byte becomes `WithBothPressed` of the old byte |
| LegacyButtons.ButtonState.SetLastA | src/buttons.rs:32-35 | the byte becomes `WithLastA` of the old byte |
| LegacyButtons.ButtonState.SetLastB | src/buttons.rs:37-40 | the byte becomes `WithLastB` of the old byte |
| LegacyFirmware.AfterEdges | src/main.rs:155-168 | both events are read first; an A event records A and, with B low, a both-press; then a B event records B and, with A low, a both-press, so with both events B is last; with neither the byte is unchanged |
| LegacyFirmware.HandleEdges | src/main.rs:155-169 | the tracker byte follows `AfterEdges` on the latched events and pin levels, and both events are cleared |
| LegacyFirmware.Firmware.constructor | src/main.rs:34-36 | before `main`: no RTC, no device, the game idle at `INIT_CN` with the dot at its start; every object of the statics is fresh |
| LegacyFirmware.Firmware.Startup | src/main.rs:70-130 | a fresh RTC with no pending tick and a fresh device (tracker 0, nothing drawn, sequencer disconnected with no PWM calls) are stored; the game is untouched; every object added to the statics is fresh |
| LegacyFirmware.Firmware.NewDevice | src/main.rs:104-128 | the parts `init_device` builds: a fresh tracker at 0, a blank display, a fresh GPIOTE and a disconnected sequencer with no PWM calls |
| LegacyFirmware.Firmware.Rtc0 | src/main.rs:132-138 | one `poll`: the tick is cleared if the RTC is there; without a device the phase is unchanged; with one, the game and device move as one phase step prescribes and the GPIOTE events are left as they were; the statics hold the same objects, so handlers chain |
| LegacyFirmware.Firmware.Pwm0 | src/main.rs:140-148 | with a device, the sequencer takes one LOOPS_DONE step (state and PWM calls); the tracker, the GPIOTE events, the display, the RTC and the game are untouched; the statics hold the same objects, so handlers chain |
| LegacyFirmware.Firmware.Gpiote | src/main.rs:150-172 | with a device, the tracker byte follows `AfterEdges` and both events are cleared; the sequencer (state and PWM calls), the display, the RTC and the game are untouched; the statics hold the same objects, so handlers chain |
| LegacyGame.Device.constructor | src/main.rs:43-50 | the device holds the given display, tracker, GPIOTE and sequencer |
| LegacyGame.StartBits | src/game/mod.rs:81-92 | the dot `start_game` creates is at the start index and is clockwise iff the random byte is above 127 |
| LegacyGame.NextView | src/game/mod.rs:41-69 | a poll keeps the phase unless its step reports completion, and then moves to the next of Idle, Ready, Playing, Result, Ready; Idle is never re-entered; the new phase is well formed |
| LegacyGame.NextButtons | src/game/mod.rs:72-98 | every phase change resets the tracker to 0; outside Result a poll that stays in its phase leaves the tracker as it was |
| LegacyGame.PollTracks | src/game/mod.rs:41-69 | a poll in Idle or Result starts no track |
| LegacyGame.RandomDirectionLost | src/game/mod.rs:81-92 | the random byte never decides the dot's first move: after `update_dot_motion` two draws give the same byte, whatever `last_a()` is; if no button edge arrives before that move (the 17th poll of Playing), the reset tracker still reports A and the dot leaves counter-clockwise |
| LegacyGame.Run | src/game/mod.rs:34-70 | any run of polls keeps the phase well formed |
| LegacyGame.CountdownStep | src/game/mod.rs:47-57 | the poll `n` steps into the countdown leads to Playing when `n + 1` is 768, and otherwise to the counters `(n + 1) mod 256` and `3 - (n + 1) / 256` |
| LegacyGame.ReadyLasts768 | src/game/mod.rs:47-57 | from cnt 0 and count_down 3 the countdown phase turns into Playing on exactly its 768th poll, whatever the buttons do |
| LegacyGame.ResultWaits | src/game/mod.rs:64-68 | the Result phase ignores every button for its first 255 polls and only counts |
| LegacyGame.Game.New | src/game/mod.rs:27-32 | the game starts idle with counter `INIT_CN` and a new dot at its start |
| LegacyGame.Game.Poll | src/game/mod.rs:34-70 | the tick is cleared if the RTC is there; with no device nothing else changes; with one, the phase becomes `NextView`, the tracker `NextButtons`, the display log grows by the phase's effects and the sequencer plays the phase's tracks in order; the GPIOTE events are outside what it may modify |
| LegacyGame.Game.Step | src/game/mod.rs:41-69 | the `match self` takes exactly one phase step, as above |
| LegacyGame.Game.IdleStep | src/game/mod.rs:42-46 | one idle step; on a both-press the game enters Ready with the tracker reset |
| LegacyGame.Game.ReadyStep | src/game/mod.rs:47-57 | one countdown step; when it ends the game enters Playing |
| LegacyGame.Game.PlayingStep | src/game/mod.rs:58-63 | one playing step; on a winner the game enters Result |
| LegacyGame.Game.ResultStep | src/game/mod.rs:64-68 | one result step; on a late both-press the game enters Ready with the tracker reset |
| LegacyGame.Game.CountingStep | src/game/mod.rs:47-57 | a countdown poll that does not end it stays in Ready with the new counters, keeps the tracker and plays `DI_LO` exactly when entered at 0 |
| LegacyGame.Game.KeepCounting | src/game/mod.rs:47-53 | that countdown poll, on the object, is a phase step as `Poll` states it |
| LegacyGame.Game.KeepPlaying | src/game/mod.rs:58-60 | a playing poll without a winner keeps Playing with the dot as the step left it and the new counter, and is a phase step as `Poll` states it |
| LegacyGame.Game.BeginStep | src/game/mod.rs:47-57 | the countdown poll that ends it enters Playing with `StartBits` and `INIT_CNT`, resets the tracker and plays `DI_LO` (when entered at 0) then `DI_HI` |
| LegacyGame.Game.BeginGame | src/game/mod.rs:54-55 | that countdown poll, on the object, is a phase step as `Poll` states it |
| LegacyGame.Game.EndGame | src/game/mod.rs:59-62 | a playing poll with a winner enters Result and plays `PEPPA`, as `Poll` states it |
| LegacyGame.Game.EnterReady | src/game/mod.rs:72-79 | Ready with cnt 0 and count_down 3, tracker reset |
| LegacyGame.Game.StartGame | src/game/mod.rs:81-92 | tracker reset, Playing with the dot set afresh to `StartBits` and `INIT_CNT`, the display untouched, `DI_HI` played on the sequencer |
| LegacyGame.Game.EnterResult | src/game/mod.rs:94-98 | tracker reset, `PEPPA` played, Result with cnt 0 and the winner |
| S0Idle.NextCnt | src/game/s0_idle.rs:36-37 | the masked counter is in 0..15; it goes from -1 (and from each value below 15) one up, and from 15 to 0 |
| S0Idle.IdleDot | src/game/s0_idle.rs:28-31 | the dot moves only on a step entered with counter 15, and keeps the spiral invariant |
| S0Idle.IdleEffects | src/game/s0_idle.rs:18-34 | at most two effects; a step entered at -1, 7 or 15 ends by showing the dot where the step leaves it; at 6 and 14 the dot is hidden and the centre shown |
| S0Idle.ClearEffects | src/game/s0_idle.rs:59-62 | `clear_idle_animation` only hides pixels on the matrix, and hides both the dot and the centre |
| S0Idle.IdleEffectsShape | src/game/s0_idle.rs:18-34 | a step draws something iff it is entered with counter -1, 6, 7, 14 or 15, and it only shows and hides pixels of the matrix |
| S0Idle.IdleStepsSplit | src/game/s0_idle.rs:9-45 | `m + n` idle steps are `m` steps followed by `n` steps |
| S0Idle.IdleStepsBelowFifteen | src/game/s0_idle.rs:18-37 | steps entered with the counter below 15 only count and leave the dot where it is |
| S0Idle.IdleCycle | src/game/s0_idle.rs:18-37 | every 16 steps from counter 0, the dot makes exactly one toggling spiral step and the counter is back at 0 |
| S0Idle.IdleAnimation | src/game/s0_idle.rs:9-45 | the step draws by the entry counter, advances the dot and the counter, and returns `both_pressed()`; when it returns true it then hides the dot and the centre |
| S0Idle.DrawIdle | src/game/s0_idle.rs:18-34 | the `match` appends exactly the entry counter's effects and moves the dot only at 15 |
| S0Idle.DrawStill | src/game/s0_idle.rs:18-27 | the arms for -1, 6, 7, 14 and the rest append their effects and leave the dot unchanged |
| S0Idle.DotIdleSpiral | src/game/s0_idle.rs:47-50 | one spiral step with the toggling callback, keeping the dot on its path |
| S1Ready.ColToUndisplay | src/game/s1_ready.rs:69-78 | for a column in 1..4, the column hidden is its cyclic predecessor in 1..4, so the `panic!` arm is never reached |
| S1Ready.ReadyCounters | src/game/s1_ready.rs:40-47 | cnt counts up by one, and at 255 it goes back to 0 and count_down loses exactly one |
| S1Ready.ReadyAfter | src/game/s1_ready.rs:42-47 | the counters after `n` countdown steps: count_down never exceeds 3, and once it is 0 so is cnt |
| S1Ready.ReadyEffects | src/game/s1_ready.rs:24-33 | every column the step touches lies in 1..4 |
| S1Ready.DigitShown | src/game/s1_ready.rs:8-11 | the column shown is `(cnt & 3) + 1` with the glyph column of THREE, TWO or ONE for count_down 3, 2 or 1 |
| S1Ready.ReadyAfterClosed | src/game/s1_ready.rs:40-47 | after `n <= 768` steps from cnt 0 and count_down 3, cnt is `n mod 256` and count_down is `3 - n / 256` |
| S1Ready.CountdownLasts768 | src/game/s1_ready.rs:49-56 | from cnt 0 and count_down 3 the step returns true on exactly the 768th call |
| S1Ready.BeepOncePerDigit | src/game/s1_ready.rs:35-38 | `DI_LO` is played on exactly the calls 1, 257 and 513 of the countdown: once per digit |
| S1Ready.ReadyAnimation | src/game/s1_ready.rs:16-57 | the counters follow `ReadyCounters`, the result is true iff count_down reaches 0, the display log grows by the step's effects (column 4 cleared at the end), and the sequencer plays `DI_LO` iff cnt was 0 and is otherwise untouched |
| S1Ready.DisplayCountdownCol | src/game/s1_ready.rs:64-67 | the previous column is hidden and this one shown with its code |
| S2Game.BWins | src/game/s2_game.rs:8-13 | `winner as u8` is at most 1, and 1 exactly for B |
| S2Game.MotionBits | src/game/s2_game.rs:67-73 | after `update_dot_motion` the dot is clockwise iff `last_a()` is false, with the index unchanged |
| S2Game.Untouched | src/game/s2_game.rs:56-62 | the `spiral` callback leaves the byte it is handed as it was |
| S2Game.GameWinner | src/game/s2_game.rs:25-47 | a winner is returned only on a call entered with counter 15, and it is A iff the index at the `spiral` call is 0 and B iff it is 48 |
| S2Game.GameDot | src/game/s2_game.rs:35-41 | without a winner the dot stays on the path; it moves only at counter 15 |
| S2Game.GameCnt | src/game/s2_game.rs:45-46 | without a winner the counter goes -1 to 0 and then around 0..15; on a winner tick it is left as it was |
| S2Game.GameEffects | src/game/s2_game.rs:25-43 | on a winner step only the centre is hidden and the dot is not shown again; otherwise a step entered at -1, 7 or 15 ends by showing the dot where the step leaves it |
| S2Game.AWinLeavesI8 | src/game/s2_game.rs:51-65 | on A's winner tick `next` runs from index 0 counter-clockwise and the `i8` subtraction leaves the `i8` range |
| S2Game.Game | src/game/s2_game.rs:16-48 | the dot, counter and result follow `GameDot`, `GameCnt` and `GameWinner`; the display log grows by the step's effects (on a winner tick the centre is hidden and the dot not re-shown); the tracker is only read |
| S2Game.DrawStill | src/game/s2_game.rs:25-34 | the arms that leave the dot where it is append their effects |
| S2Game.DotGameSpiral | src/game/s2_game.rs:50-65 | the result is A iff the index is 0 at the `spiral` call, B iff it is 48, otherwise none, after the direction is set from `last_a()` |
| S2Game.UpdateDotMotion | src/game/s2_game.rs:67-73 | afterwards `is_clockwise() == !last_a()` and the index is unchanged |
| LegacyS3Result.ColToUndisplay | src/game/s3_result.rs:57-67 | for a glyph column in 0..3, the column hidden is its cyclic predecessor plus the winner's offset, so the `panic!` arm is never reached |
| LegacyS3Result.ResultEffects | src/game/s3_result.rs:19-27 | for a low byte in 0..127 the step hides the previous column and shows glyph column `cnt & 3` of the winner's letter at column `(cnt & 3) + winner`; at 128 it clears column `3 + winner`; above 128 it draws nothing; every column touched is in `winner..winner + 3` |
| LegacyS3Result.ResultAnimation | src/game/s3_result.rs:10-38 | the counter goes up by one (wrapping), the tracker is reset exactly on the call where the counter becomes 255, the result is true iff the counter is then above 255 and `both_pressed()`, and the display log grows by the step's effects |
| LegacyS3Result.DisplayResultCol | src/game/s3_result.rs:46-55 | the previous column is hidden and the glyph column shown at its offset |
| S3Result.PrevCol | tug-of-war/src/game/s3_result.rs:63-72 | for a column in 0..3 the result is `(c + 3) mod 4`, so the `panic!` arm is never reached |
| S3Result.ClearEffects | tug-of-war/src/game/s3_result.rs:54-61 | within the drawing half of the cycle, exactly the column `(cycle & 3) + winner` is hidden; otherwise nothing |
| S3Result.ResultEffects | tug-of-war/src/game/s3_result.rs:19-27 | every column touched is in `winner..winner + 3`; within the drawing half glyph column `cycle & 3` is shown at its offset; past 128 nothing is drawn |
| S3Result.SameDrawingAsLegacy | tug-of-war/src/game/s3_result.rs:19-27 | with the low byte as the display cycle, the rewrite draws exactly what `src/game/s3_result.rs` draws |
| S3Result.ClearHidesShown | tug-of-war/src/game/s3_result.rs:35-37 | on a restart within the drawing half, the clearing hides exactly the column this step showed |
| S3Result.SameRestartAsLegacy | tug-of-war/src/game/s3_result.rs:33-38 | the `else if` restarts exactly when the first revision's `cnt > 255 && both_pressed()` would, after its reset at 255 |
| S3Result.ResultAnimation | tug-of-war/src/game/s3_result.rs:13-41 | the counter goes up by one modulo 2^16, the tracker is reset exactly on the call where it becomes 255 (which returns false), the result is true iff it is then above 255 and `both_pressed()`, and the display log grows by the drawn effects and, on a restart, the clearing |
| S3Result.DisplayResultCol | tug-of-war/src/game/s3_result.rs:43-52 | the previous column is hidden and glyph column `cycle & 3` shown at its offset |
| S3Result.ClearResultCol | tug-of-war/src/game/s3_result.rs:54-61 | within the drawing half the column of this cycle is hidden; otherwise nothing is drawn |
| Notes.SampleLen | tug-of-war/src/notes.rs:3-81 | every waveform table has between 2 and 159 samples |
| Sound.Loops | tug-of-war/src/sound.rs:215-218 | a note shorter than one period repeats once; otherwise, while the quotient fits in 16 bits, the count is `t_ms * 62500 / 1000 / len` |
| Sound.LoopsWithinPeriod | tug-of-war/src/sound.rs:215-218 | when the cast does not truncate, the repeated periods last the note's duration to within one period |
| Sound.LoopsNoU32Overflow | tug-of-war/src/sound.rs:217 | the `u32` product `t_ms * 62500` cannot overflow |
| Sound.LoopsTruncates | tug-of-war/src/sound.rs:217 | the `as u16` cast does truncate: 2098 ms of the 2-sample silence asks for 65562 repeats and gets 26 |
| Sound.ShippedNotesFit | tug-of-war/src/notes.rs:87-102 | every note of `DI_LO`, `DI_HI` and `PEPPA` needs between 1 and 65535 repeats, so no cast truncates and each lasts within one period of its duration |
| Sound.NoteOps | tug-of-war/src/sound.rs:206-213 | `play_note` sets the repeat count and then loads the note's waveform split at half its length |
| Sound.PlayTrackView | tug-of-war/src/sound.rs:65-86 | `play_track` always ends in Playing the new track, at position 1, or 0 for an empty track |
| Sound.PlayTrackOps | tug-of-war/src/sound.rs:65-86 | the PWM calls of `play_track`: stop if playing, connect if disconnected, then the first note; their order is stated by `PlayTrackOpsOrder` |
| Sound.PlayTrackOpsOrder | tug-of-war/src/sound.rs:65-86 | a playing track is stopped before anything else, a disconnected sequencer is connected first, a non-empty track always ends with its first note, and from Idle an empty track makes no call |
| Sound.InterruptView | tug-of-war/src/sound.rs:88-116 | the LOOPS_DONE handler never leaves the sequencer Idle: with notes left it moves one note on and stays Playing, on an exhausted track it ends Disconnected, and Disconnected stays Disconnected |
| Sound.InterruptOps | tug-of-war/src/sound.rs:88-116 | the PWM calls of one LOOPS_DONE interrupt; their shape is stated by `InterruptOpsOrder` |
| Sound.InterruptOpsOrder | tug-of-war/src/sound.rs:88-116 | the event is always cleared first; a disconnected sequencer does nothing more; an exhausted track is stopped and disconnected in the same call |
| Sound.NoteLoadsWave | tug-of-war/src/sound.rs:206-213 | one note loads exactly its waveform |
| Sound.InterruptLoadsNext | tug-of-war/src/sound.rs:99-108 | a LOOPS_DONE interrupt with notes left loads exactly the next note |
| Sound.InterruptsWhilePlaying | tug-of-war/src/sound.rs:99-108 | `k` interrupts from position `p` with `k` notes left keep Playing at `p + k` and load exactly those `k` notes, in order |
| Sound.DisconnectedStays | tug-of-war/src/sound.rs:113 | once Disconnected, any number of interrupts changes nothing |
| Sound.InterruptsSplit | tug-of-war/src/sound.rs:88-116 | `m + n` interrupts are `m` followed by `n` |
| Sound.PlayTrackLoadsFirst | tug-of-war/src/sound.rs:65-86 | `play_track` of a non-empty track loads exactly its first note, whatever the state before |
| Sound.TrackLastsExactly | tug-of-war/src/sound.rs:88-116 | after `play_track` of an `n`-note track the sequencer is Disconnected after exactly `n` LOOPS_DONE interrupts and still Playing after every earlier number |
| Sound.InterruptsToEnd | tug-of-war/src/sound.rs:99-108 | playing from note `p`, the interrupts until the last note starts load the rest of the track in order; after `play_track` `p` is 1 |
| Sound.TrackPlaysInOrder | tug-of-war/src/sound.rs:65-116 | `play_track` and the interrupts that follow load the track's waveforms, exactly and in order |
| Sound.PlayOneMore | tug-of-war/src/sound.rs:65-86 | playing one more track after a run of tracks adds its state change and its PWM calls at the end |
| Sound.Track.Load | tug-of-war/src/sound.rs:21-23 | `Track::new`: the track holds the given notes with the cursor at 0 |
| Sound.Track.NextNote | tug-of-war/src/sound.rs:25-33 | with notes left it yields the note at the cursor and moves it one on; at the end it yields nothing and the cursor stays |
| Sound.Sound.Init | tug-of-war/src/sound.rs:48-63 | a new sequencer is Disconnected and has made no PWM call; its track storage is fresh |
| Sound.Sound.PlayTrack | tug-of-war/src/sound.rs:65-86 | the loop ends after at most three rounds; the new state is `PlayTrackView` of the old one, the track reloaded with the new notes, and the PWM calls recorded are the stop (if playing), the connect (if disconnected) and the first note |
| Sound.Sound.HandleInterrupt | tug-of-war/src/sound.rs:88-116 | the event is cleared; the new state is `InterruptView` of the old one and the PWM calls are the next note, or the stop and the disconnect |
| Sound.Sound.SetTrack | tug-of-war/src/sound.rs:118-130 | from Idle, Playing the given notes from position 0; no PWM call |
| Sound.Sound.Stop | tug-of-war/src/sound.rs:132-145 | from Playing, Idle after stop, disable and enable |
| Sound.Sound.Connect | tug-of-war/src/sound.rs:147-161 | from Disconnected, Idle after the pin is attached and the generator enabled |
| Sound.Sound.Disconnect | tug-of-war/src/sound.rs:163-179 | from Idle, Disconnected after the generator is disabled and the pin detached |
| Sound.Sound.PlayNextNote | tug-of-war/src/sound.rs:181-199 | reports done exactly when the track is exhausted; otherwise moves one note on and plays it |
| TugGame.Device.constructor | tug-of-war/src/main.rs:45-50 | the device holds the given tracker, display and sequencer; the random number generator is a parameter of each poll |
| TugGame.EntryButtons | tug-of-war/src/game/mod.rs:108-114 | the tracker `playing` leaves records A as last exactly when the random byte is at most 127, and never a both-press |
| TugGame.RandomDirectionKept | tug-of-war/src/game/mod.rs:108-114 | the dot starts counter-clockwise exactly when A is recorded as last, so if no button edge arrives before the first move (the 17th poll of Playing) that move keeps the random direction |
| TugGame.NextView | tug-of-war/src/game/mod.rs:58-97 | a poll keeps the phase unless its step reports completion, and then moves to the next of Idle, Ready, Playing, Result, Ready; Idle is never re-entered; the new phase is well formed |
| TugGame.NextButtons | tug-of-war/src/game/mod.rs:58-121 | entering Playing leaves the tracker `EntryButtons` makes; a poll that ends in Idle or Ready, and every playing poll, leaves the tracker as it was |
| TugGame.PollTracks | tug-of-war/src/game/mod.rs:58-97 | a poll in Idle or Result starts no track |
| TugGame.Run | tug-of-war/src/game/mod.rs:58-97 | any run of polls keeps the phase well formed |
| TugGame.ResultWaits | tug-of-war/src/game/mod.rs:82-95 | the Result phase ignores every button for its first 255 polls and only counts |
| TugGame.Game.New | tug-of-war/src/game/mod.rs:51-56 | the game starts idle with counter `INIT_CN` and a new dot at its start |
| TugGame.Game.Poll | tug-of-war/src/game/mod.rs:58-98 | the tick is cleared, then the phase becomes `NextView`, the tracker `NextButtons`, the display log grows by the phase's effects and the sequencer plays the phase's tracks in order; the GPIOTE events are outside what it may modify |
| TugGame.Game.IdleStep | tug-of-war/src/game/mod.rs:61-65 | one idle step; on a both-press the game enters Ready |
| TugGame.Game.ReadyStep | tug-of-war/src/game/mod.rs:66-75 | one countdown step; when it ends the game enters Playing |
| TugGame.Game.PlayingStep | tug-of-war/src/game/mod.rs:76-81 | one playing step; on a winner the game enters Result |
| TugGame.Game.ResultStep | tug-of-war/src/game/mod.rs:82-96 | one result step; on a late both-press the game enters Ready |
| TugGame.Game.CountingStep | tug-of-war/src/game/mod.rs:66-75 | a countdown poll that does not end it stays in Ready with the new counters, keeps the tracker and plays `DI_LO` exactly when entered at 0 |
| TugGame.Game.KeepCounting | tug-of-war/src/game/mod.rs:66-72 | that countdown poll, on the object, is a phase step as `Poll` states it |
| TugGame.Game.KeepPlaying | tug-of-war/src/game/mod.rs:76-78 | a playing poll without a winner keeps Playing with the dot as the step left it and the new counter, and is a phase step as `Poll` states it |
| TugGame.Game.BeginStep | tug-of-war/src/game/mod.rs:66-75 | the countdown poll that ends it enters Playing with `StartBits` and `INIT_CNT`, leaves the tracker `EntryButtons` makes and plays `DI_LO` (when entered at 0) then `DI_HI` |
| TugGame.Game.BeginGame | tug-of-war/src/game/mod.rs:72-74 | that countdown poll, on the object, is a phase step as `Poll` states it |
| TugGame.Game.EndGame | tug-of-war/src/game/mod.rs:77-80 | a playing poll with a winner enters Result and plays `PEPPA`, as `Poll` states it |
| TugGame.Game.EnterReady | tug-of-war/src/game/mod.rs:100-106 | Ready with cnt 0 and count_down 3 |
| TugGame.Game.EnterPlaying | tug-of-war/src/game/mod.rs:108-121 | the dot set afresh to `StartBits` and the tracker `EntryButtons` (reset, then on a random byte at most 127 the dot toggled and A recorded), `DI_HI` played, counter at `INIT_CNT`, the display untouched |
| TugGame.Game.EnterResult | tug-of-war/src/game/mod.rs:123-130 | `PEPPA` played, Result with cnt 0, the winner and `one_sec` false |
| TugFirmware.Firmware.constructor | tug-of-war/src/main.rs:35-37 | before `main`: `RTC` and `DEVICE` not initialised, `GAME` unlocked and holding an idle game; every object of the statics is fresh |
| TugFirmware.Firmware.InitRtc | tug-of-war/src/main.rs:73-83 | `RTC.init` succeeds exactly on an uninitialised cell, which then holds a fresh RTC with no pending tick; otherwise nothing changes; every object added to the statics is fresh |
| TugFirmware.Firmware.InitDevice | tug-of-war/src/main.rs:86-123 | `DEVICE.init` succeeds exactly on an uninitialised cell, which then holds a fresh device (tracker 0, nothing drawn, sequencer disconnected); otherwise nothing changes; every object added to the statics is fresh |
| TugFirmware.Firmware.NewDevice | tug-of-war/src/main.rs:104-111 | the parts `init_device` builds: a fresh tracker at 0, a blank display and a disconnected sequencer with no PWM calls |
| TugFirmware.Firmware.Startup | tug-of-war/src/main.rs:53-66 | after `init_rtc` and `init_device` on the fresh statics both late cells are unlocked, so `RTC0` polls from then on; the game is untouched; every object added to the statics is fresh |
| TugFirmware.Firmware.Rtc0 | tug-of-war/src/main.rs:126-135 | every cell ends in the state it started in; when both late cells are initialised the tick is cleared, the game and device take one phase step and the GPIOTE events are left as they were; otherwise the game, the RTC and every part of the device are untouched; the statics hold the same objects, so handlers chain |
| TugFirmware.Firmware.PollHeld | tug-of-war/src/main.rs:129-134 | with all three guards taken, the game is polled once (the tick cleared, one phase step, the GPIOTE events kept) and all three cells are unlocked again |
| TugFirmware.Firmware.PollGame | tug-of-war/src/main.rs:132 | `game.poll` through the guards: the tick is cleared and one phase step is taken; the cells are unchanged |
| TugFirmware.Firmware.LockAll | tug-of-war/src/main.rs:129-130 | `DEVICE` and `RTC` yield a guard exactly when unlocked; `GAME` always does between handlers |
| TugFirmware.Firmware.DropAll | tug-of-war/src/main.rs:133-134 | every guard taken is dropped, unlocking its cell; the values behind them are unchanged |
| TugFirmware.Firmware.Pwm0 | tug-of-war/src/main.rs:138-145 | if `DEVICE` is unlocked the sequencer takes one LOOPS_DONE step (state and PWM calls); the lock is released; the tracker, the GPIOTE events, the display, the RTC and the game are untouched; the statics hold the same objects, so handlers chain |
| TugFirmware.Firmware.Gpiote | tug-of-war/src/main.rs:148-155 | if `DEVICE` is unlocked the tracker follows `AfterInterrupt` and the examined channel's event is cleared; the lock is released; the sequencer (state and PWM calls), the display, the RTC and the game are untouched; the statics hold the same objects, so handlers chain |
| EmbedMutex.Mutex.New | embed-mutex/src/lib.rs:30-35 | a new cell is unlocked and holds the value |
| EmbedMutex.Mutex.NewUinit | embed-mutex/src/lib.rs:38-43 | a new late cell is not initialised and holds nothing |
| EmbedMutex.Mutex.Init | embed-mutex/src/lib.rs:48-56 | succeeds exactly on an uninitialised cell, which becomes unlocked holding the value; on any other cell nothing changes |
| EmbedMutex.Mutex.TryLock | embed-mutex/src/lib.rs:59-68 | yields a guard exactly on an unlocked cell, which becomes locked; an uninitialised or locked cell stays as it is; the value never changes |
| EmbedMutex.Mutex.Drop | embed-mutex/src/lib.rs:71-78 | the value is dropped exactly when the cell is unlocked or locked |
| EmbedMutex.LockGaurd.constructor | embed-mutex/src/lib.rs:65 | the guard refers to the cell it locked |
| EmbedMutex.LockGaurd.Deref | embed-mutex/src/lib.rs:80-87 | the value read is the one the cell holds |
| EmbedMutex.LockGaurd.Put | embed-mutex/src/lib.rs:89-94 | a write through the guard leaves the cell holding the new value, still locked |
| EmbedMutex.LockGaurd.Drop | embed-mutex/src/lib.rs:96-100 | dropping the guard unlocks the cell and keeps its value |
| EmbedMutex.TestLockUninit | embed-mutex/src/lib.rs:108-113 | locking a cell that was never initialised fails |
| EmbedMutex.TestLockInit | embed-mutex/src/lib.rs:115-121 | after `init(5)` a lock reads 5 |
| EmbedMutex.TestDoubleLock | embed-mutex/src/lib.rs:123-131 | while a guard is live a second lock fails |
| EmbedMutex.TestLockRelease | embed-mutex/src/lib.rs:133-143 | a write of 6 through a guard survives its drop, and a second lock reads 6 |

## Left out

- The PWM peripheral (`tug-of-war/src/sound.rs:48-57`, 206-213) is a log of calls.
  - Waveform samples are reduced to their lengths.
  - A note's load is its waveform split at half its length.
  - Duty-cycle values, sequence registers and pin configuration are not modelled.
- Peripheral bring-up is not modelled: clock source, RTC prescaler, NVIC priorities and unmasking, GPIOTE channel setup, `Board::take`.
  - Only the objects that start-up stores are kept, in their initial state.
- The random number generator is a byte parameter of each poll.
- Button pin levels and latched GPIOTE events are inputs of the handlers.
- Interrupt masking, preemption and `cortex_m::interrupt::free` are not modelled.
  - Each handler is one atomic sequential step.
  - So a `try_lock` that fails because another handler holds a guard is only covered through the cell's state.
- `UnsafeCell`/`MaybeUninit` memory semantics, `Sync`, `RefCell` borrow panics and Rust lifetimes are not modelled.
  - The cell's slot is an `Option` with its state tag.
  - A guard's validity is "its cell is locked".
- Rust ownership of the speaker pin as it moves between the sequencer's states is not modelled.
- The `panic!` in `Mutex::init` on a second initialisation is the `ok = false` result of `EmbedMutex.Mutex.Init`, `TugFirmware.Firmware.InitRtc` and `InitDevice`.
- `unwrap` on peripheral creation is not modelled.
- Debug-build overflow panics are not modelled: the model follows the release build's wrapping.
  - `Spiral.LeftEndCounterClockwiseLeavesI8` and `S2Game.AWinLeavesI8` show where a debug build would panic.
- LegacyS3Result.ResultAnimation: the counter wraps from 65535 to 0, as in a release build; a debug build panics there instead.
- The tests' `u32` values are unbounded integers in `EmbedMutex.TestLockInit`, `TestDoubleLock` and `TestLockRelease`; they never exceed 6.
- Logging (`tug-of-war/src/debug.rs`, `debug::info!`), panic handlers and `main`'s `wfi` loop are not modelled.
- TugGame.PollTracks: its ensures states only that Idle and Result start no track.
  - The tracks of the other phases are stated by `Game.CountingStep`, `Game.BeginStep` and `Game.EndGame`.
- LegacyGame.PollTracks: as for `TugGame.PollTracks`, the tracks of Ready and Playing are stated by `Game.CountingStep`, `Game.BeginStep` and `Game.EndGame`.
