/** The interrupt handlers of `tug-of-war/src/main.rs`. The statics `RTC`,
    `GAME` and `DEVICE` are `EmbedMutex` cells: the game's is initialised
    from the start, the other two once at start-up. Each handler runs to
    completion inside a critical section, so it is one atomic step here, and
    every guard is dropped before its handler returns. The random byte, the
    GPIOTE events and the button pin levels are inputs. */
module TugFirmware {
  import opened Common
  import opened Display
  import opened Spiral
  import opened Sound
  import opened S0Idle
  import opened EmbedMutex
  import Buttons
  import TugGame

  /** The three statics. `game` is the game `GAME` holds from the start;
      `rtc` and `device` name what `RTC` and `DEVICE` hold. */
  class Firmware {
    const rtcCell: Mutex<Rtc>
    const gameCell: Mutex<TugGame.Game>
    const deviceCell: Mutex<TugGame.Device>
    const game: TugGame.Game
    ghost var rtc: Option<Rtc>
    ghost var device: Option<TugGame.Device>

    ghost function Objs(): set<object>
      reads this
    {
      {this, rtcCell as object, gameCell as object, deviceCell as object} + game.Objs()
      + (if rtc.Some? then {rtc.value} else {})
      + (if device.Some? then {device.value} + device.value.Objs() else {})
    }

    /** Between handlers: three distinct consistent cells holding `rtc`,
        `game` and `device`, none locked, and the game and the device
        consistent. */
    ghost predicate Valid()
      reads this, Objs()
    {
      Linked() && !rtcCell.state.Locked? && !gameCell.state.Locked? && !deviceCell.state.Locked?
    }

    /** `Valid` without "none locked": what holds while a handler runs. */
    ghost predicate Linked()
      reads this, Objs()
    {
      && rtcCell as object != gameCell as object
      && rtcCell as object != deviceCell as object
      && gameCell as object != deviceCell as object
      && rtcCell.Valid() && gameCell.Valid() && deviceCell.Valid()
      && rtcCell.value == rtc && gameCell.value == Some(game) && deviceCell.value == device
      && game.Valid()
      && (device.Some? ==> device.value.Valid())
    }

    /** Both late cells have been initialised, so `RTC0` polls the game. */
    predicate Ready()
      reads this, rtcCell, deviceCell
    {
      rtcCell.state == Unlock && deviceCell.state == Unlock
    }

    /** The statics before `main`: `RTC` and `DEVICE` not initialised,
        `GAME` holding a new game. */
    constructor ()
      ensures Valid() && rtcCell.state == Uinit && deviceCell.state == Uinit && !Ready()
      ensures gameCell.state == Unlock && game.View() == TugGame.GIdle(START, INIT_CN)
      ensures fresh(Objs() - {this})
    {
      rtcCell := new Mutex<Rtc>.NewUinit();
      var g := new TugGame.Game.New();
      game := g;
      gameCell := new Mutex<TugGame.Game>.New(g);
      deviceCell := new Mutex<TugGame.Device>.NewUinit();
      rtc := None;
      device := None;
    }

    /** `init_rtc`: store a fresh RTC. `init` succeeds only on a cell not
        yet initialised (the source panics otherwise). */
    method InitRtc() returns (ok: bool)
      requires Valid()
      modifies this, rtcCell
      ensures Valid() && device == old(device) && deviceCell.state == old(deviceCell.state)
      ensures ok <==> old(rtcCell.state) == Uinit
      ensures ok ==> rtcCell.state == Unlock && rtc.Some? && fresh(rtc.value) && !rtc.value.tickEvent
      ensures !ok ==> rtcCell.state == old(rtcCell.state) && rtc == old(rtc)
      ensures game.View() == old(game.View())
      ensures fresh(Objs() - old(Objs()))
    {
      var r := new Rtc();
      assert rtcCell !in game.Objs();
      assert device.Some? ==> rtcCell !in device.value.Objs() + {device.value};
      ok := rtcCell.Init(r);
      if ok {
        rtc := Some(r);
      }
    }

    /** `init_device`: store a fresh device with a new tracker, a blank
        display and a disconnected sequencer; as for `init_rtc`, only into
        a cell not yet initialised. */
    method InitDevice() returns (ok: bool)
      requires Valid()
      modifies this, deviceCell
      ensures Valid() && rtc == old(rtc) && rtcCell.state == old(rtcCell.state)
      ensures ok <==> old(deviceCell.state) == Uinit
      ensures ok ==>
        && deviceCell.state == Unlock && device.Some? && fresh(device.value)
        && device.value.buttons.state == 0 && device.value.display.log == []
        && device.value.sound.View() == VDisconnected && device.value.sound.ops == []
      ensures !ok ==> deviceCell.state == old(deviceCell.state) && device == old(device)
      ensures game.View() == old(game.View())
      ensures fresh(Objs() - old(Objs()))
    {
      var d := NewDevice();
      assert deviceCell !in game.Objs();
      assert device.Some? ==> deviceCell !in device.value.Objs() + {device.value};
      ok := deviceCell.Init(d);
      if ok {
        device := Some(d);
      }
    }

    /** The device `init_device` builds: a new tracker, a blank display
        and a disconnected sequencer. */
    static method NewDevice() returns (d: TugGame.Device)
      ensures fresh(d) && fresh(d.Objs()) && d.Valid()
      ensures d.buttons.state == 0 && d.display.log == []
      ensures d.sound.View() == VDisconnected && d.sound.ops == []
    {
      var gpiote := new Gpiote();
      var buttons := new Buttons.ButtonState(gpiote);
      var display := new DisplayPins();
      var sound := new Sound.Init();
      d := new TugGame.Device(buttons, display, sound);
    }

    /** `main`: `init_rtc`, then `init_device`; from then on `RTC0` polls. */
    method Startup() returns (rtcOk: bool, deviceOk: bool)
      requires Valid()
      modifies this, rtcCell, deviceCell
      ensures Valid() && game.View() == old(game.View())
      ensures rtcOk <==> old(rtcCell.state) == Uinit
      ensures deviceOk <==> old(deviceCell.state) == Uinit
      ensures rtcOk && deviceOk ==> Ready()
      ensures fresh(Objs() - old(Objs()))
    {
      rtcOk := InitRtc();
      deviceOk := InitDevice();
    }

    /** `RTC0`: try to lock `DEVICE`, `RTC` and `GAME`; poll the game only
        if all three locks were taken; every guard taken is dropped at the
        end, so each cell is back in the state it was in. */
    method Rtc0(random: u8)
      requires Valid()
      modifies Objs()
      ensures Valid() && rtc == old(rtc) && device == old(device) && Objs() == old(Objs())
      ensures rtcCell.state == old(rtcCell.state) && gameCell.state == old(gameCell.state)
      ensures deviceCell.state == old(deviceCell.state)
      ensures Ready() ==> !rtc.value.tickEvent
      ensures Ready() ==> game.Stepped(device.value, old(game.View()),
        old(device.value.buttons.state), old(device.value.display.log),
        old(device.value.sound.View()), old(device.value.sound.ops), random)
      ensures Ready() ==> unchanged(device.value.buttons.gpiote)
      ensures !Ready() ==> game.View() == old(game.View())
      ensures !Ready() ==> rtc.Some? ==> unchanged(rtc.value)
      ensures !Ready() ==> device.Some? ==> unchanged(old(device.value.Objs()))
    {
      ghost var v0 := game.View();
      ghost var s0, log0 := if device.Some? then device.value.buttons.state else 0,
        if device.Some? then device.value.display.log else [];
      ghost var av0, ops0 := if device.Some? then device.value.sound.View() else VDisconnected,
        if device.Some? then device.value.sound.ops else [];
      var dg, rg, gg := LockAll();
      assert game.View() == v0;
      assert device.Some? ==> device.value.buttons.state == s0 && device.value.display.log == log0;
      assert device.Some? ==> device.value.sound.View() == av0 && device.value.sound.ops == ops0;
      if dg.Some? && rg.Some? && gg.Some? {
        PollHeld(dg.value, rg.value, gg.value, random);
      } else {
        DropAll(dg, rg, gg);
      }
    }

    /** The body of `RTC0`'s `if let` when all three locks were taken: poll
        the game through the guards, then drop them. */
    method PollHeld(dg: LockGaurd<TugGame.Device>, rg: LockGaurd<Rtc>, gg: LockGaurd<TugGame.Game>, random: u8)
      requires Linked()
      requires dg.cell == deviceCell && dg.Valid()
      requires rg.cell == rtcCell && rg.Valid()
      requires gg.cell == gameCell && gg.Valid()
      modifies Objs()
      ensures Linked() && rtc == old(rtc) && device == old(device)
      ensures deviceCell.state == Unlock && rtcCell.state == Unlock && gameCell.state == Unlock
      ensures !rtc.value.tickEvent
      ensures game.Stepped(device.value, old(game.View()),
        old(device.value.buttons.state), old(device.value.display.log),
        old(device.value.sound.View()), old(device.value.sound.ops), random)
      ensures unchanged(device.value.buttons.gpiote)
    {
      var g := gg.Deref();
      var r := rg.Deref();
      var d := dg.Deref();
      ghost var events := d.buttons.gpiote;
      assert events !in g.Objs() + {r} + d.Parts();
      PollGame(g, r, d, random);
      assert unchanged(events);
      DropAll(Some(dg), Some(rg), Some(gg));
    }

    /** `game.poll(&mut rtc, &mut device)` on the values behind the guards. */
    method PollGame(g: TugGame.Game, r: Rtc, d: TugGame.Device, random: u8)
      requires Linked() && g == game && rtc == Some(r) && device == Some(d)
      modifies g.Objs(), r, d.Parts()
      ensures Linked() && unchanged(this, rtcCell, gameCell, deviceCell)
      ensures !r.tickEvent
      ensures g.Stepped(d, old(g.View()), old(d.buttons.state), old(d.display.log),
        old(d.sound.View()), old(d.sound.ops), random)
    {
      assert r !in g.Objs() + d.Objs();
      assert this !in g.Objs() + d.Objs() + {r};
      assert rtcCell !in g.Objs() + d.Objs() + {r};
      assert gameCell !in g.Objs() + d.Objs() + {r};
      assert deviceCell !in g.Objs() + d.Objs() + {r};
      g.Poll(r, d, random);
    }

    /** The scrutinee of `RTC0`'s `if let`: `try_lock` on `DEVICE`, `RTC`
        and `GAME`, in that order. */
    method LockAll() returns (dg: Option<LockGaurd<TugGame.Device>>, rg: Option<LockGaurd<Rtc>>,
        gg: Option<LockGaurd<TugGame.Game>>)
      requires Valid()
      modifies rtcCell, gameCell, deviceCell
      ensures Linked()
      ensures dg.Some? <==> old(deviceCell.state) == Unlock
      ensures rg.Some? <==> old(rtcCell.state) == Unlock
      ensures gg.Some?
      ensures dg.Some? ==> dg.value.cell == deviceCell && dg.value.Valid()
      ensures rg.Some? ==> rg.value.cell == rtcCell && rg.value.Valid()
      ensures gg.value.cell == gameCell && gg.value.Valid()
      ensures dg.None? ==> deviceCell.state == old(deviceCell.state)
      ensures rg.None? ==> rtcCell.state == old(rtcCell.state)
    {
      dg := deviceCell.TryLock();
      rg := rtcCell.TryLock();
      gg := gameCell.TryLock();
    }

    /** The end of `RTC0`'s `if let`: every guard taken is dropped. */
    method DropAll(dg: Option<LockGaurd<TugGame.Device>>, rg: Option<LockGaurd<Rtc>>,
        gg: Option<LockGaurd<TugGame.Game>>)
      requires rtcCell as object != gameCell as object && rtcCell as object != deviceCell as object
      requires gameCell as object != deviceCell as object
      requires dg.Some? ==> dg.value.cell == deviceCell && dg.value.Valid()
      requires rg.Some? ==> rg.value.cell == rtcCell && rg.value.Valid()
      requires gg.Some? ==> gg.value.cell == gameCell && gg.value.Valid()
      requires Linked()
      modifies rtcCell, gameCell, deviceCell
      ensures Linked()
      ensures deviceCell.state == if dg.Some? then Unlock else old(deviceCell.state)
      ensures rtcCell.state == if rg.Some? then Unlock else old(rtcCell.state)
      ensures gameCell.state == if gg.Some? then Unlock else old(gameCell.state)
      ensures unchanged(game) && unchanged(game.Objs())
      ensures rtc.Some? ==> unchanged(rtc.value)
      ensures device.Some? ==> unchanged(device.value) && unchanged(device.value.Objs())
    {
      assert rtcCell !in game.Objs() && gameCell !in game.Objs() && deviceCell !in game.Objs();
      if dg.Some? {
        dg.value.Drop();
      }
      if rg.Some? {
        rg.value.Drop();
      }
      if gg.Some? {
        gg.value.Drop();
      }
    }

    /** `PWM0`: if `DEVICE` can be locked, run the sequencer's LOOPS_DONE
        handler. */
    method Pwm0()
      requires Valid()
      modifies deviceCell, if device.Some? then device.value.sound.Objs() else {}
      ensures Valid() && rtc == old(rtc) && device == old(device) && Objs() == old(Objs())
      ensures deviceCell.state == old(deviceCell.state)
      ensures deviceCell.state == Unlock ==>
        && device.value.sound.View() == InterruptView(old(device.value.sound.View()))
        && device.value.sound.ops == old(device.value.sound.ops) + InterruptOps(old(device.value.sound.View()))
      ensures device.Some? ==> unchanged(device.value.buttons, device.value.buttons.gpiote, device.value.display)
      ensures rtc.Some? ==> unchanged(rtc.value)
      ensures game.View() == old(game.View())
    {
      var dg := deviceCell.TryLock();
      if dg.Some? {
        var d := dg.value.Deref();
        d.sound.HandleInterrupt();
        dg.value.Drop();
      }
    }

    /** `GPIOTE`: if `DEVICE` can be locked, run the tracker's handler. */
    method Gpiote(aLow: bool, bLow: bool)
      requires Valid()
      modifies deviceCell, if device.Some? then {device.value.buttons, device.value.buttons.gpiote} else {}
      ensures Valid() && rtc == old(rtc) && device == old(device) && Objs() == old(Objs())
      ensures deviceCell.state == old(deviceCell.state)
      ensures deviceCell.state == Unlock ==>
        device.value.buttons.state == Buttons.AfterInterrupt(old(device.value.buttons.state),
          old(device.value.buttons.gpiote.event0), old(device.value.buttons.gpiote.event1), aLow, bLow)
      ensures deviceCell.state == Unlock && old(device.value.buttons.gpiote.event0) ==>
        !device.value.buttons.gpiote.event0 && device.value.buttons.gpiote.event1 == old(device.value.buttons.gpiote.event1)
      ensures deviceCell.state == Unlock && !old(device.value.buttons.gpiote.event0) ==>
        !device.value.buttons.gpiote.event0 && !device.value.buttons.gpiote.event1
      ensures device.Some? ==> unchanged(device.value.display)
      ensures device.Some? ==>
        device.value.sound.View() == old(device.value.sound.View()) && device.value.sound.ops == old(device.value.sound.ops)
      ensures rtc.Some? ==> unchanged(rtc.value)
      ensures game.View() == old(game.View())
    {
      var dg := deviceCell.TryLock();
      if dg.Some? {
        var d := dg.value.Deref();
        d.buttons.HandleInterrupt(aLow, bLow);
        dg.value.Drop();
      }
    }
  }
}
