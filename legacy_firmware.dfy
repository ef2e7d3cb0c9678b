/** The interrupt handlers of `src/main.rs`. The RTC and the device live in
    shared `Option`s that start empty and are filled once at start-up; the
    game lives in a shared cell from the start. Each handler runs to
    completion inside a critical section, so it is one atomic step here.
    The GPIOTE events and the button pin levels are inputs. */
module LegacyFirmware {
  import opened Common
  import opened Display
  import opened Spiral
  import opened Sound
  import opened S0Idle
  import opened LegacyButtons
  import LegacyGame

  /** The tracker byte after the GPIOTE handler: an A event (channel 0)
      records A and, if B is held low, a both-press; then a B event records
      B and, if A is held low, a both-press. */
  function AfterEdges(s: bv8, event0: bool, event1: bool, aLow: bool, bLow: bool): (r: bv8)
    ensures event1 ==> !LastA(r)
    ensures event0 && !event1 ==> LastA(r)
    ensures !event0 && !event1 ==> r == s
    ensures BothPressed(r) <==> BothPressed(s) || (event0 && bLow) || (event1 && aLow)
  {
    var afterA := if event0 then (if bLow then WithBothPressed(WithLastA(s)) else WithLastA(s)) else s;
    if event1 then (if aLow then WithBothPressed(WithLastB(afterA)) else WithLastB(afterA)) else afterA
  }

  /** The statics `RTC`, `GAME` and `DEVICE`. */
  class Firmware {
    var rtc: Option<Rtc>
    var device: Option<LegacyGame.Device>
    const game: LegacyGame.Game

    function Objs(): set<object>
      reads this
    {
      {this} + game.Objs()
      + (if rtc.Some? then {rtc.value} else {})
      + (if device.Some? then {device.value} + device.value.Objs() else {})
    }

    predicate Valid()
      reads this, Objs()
    {
      game.Valid() && (device.Some? ==> device.value.Valid())
    }

    /** The statics before `main`: no RTC, no device, a new game. */
    constructor ()
      ensures Valid() && rtc == None && device == None
      ensures game.View() == LegacyGame.GIdle(START, INIT_CN)
      ensures fresh(Objs() - {this})
    {
      rtc := None;
      device := None;
      game := new LegacyGame.Game.New();
    }

    /** `main`'s `init_rtc` and `init_device`: put a fresh RTC and a fresh
        device, with a new tracker, a blank display and a disconnected
        sequencer, into the shared `Option`s. */
    method Startup()
      requires Valid()
      modifies this
      ensures Valid() && rtc.Some? && device.Some? && fresh(rtc.value) && fresh(device.value)
      ensures !rtc.value.tickEvent
      ensures device.value.buttons.state == 0 && device.value.display.log == []
      ensures device.value.sound.View() == VDisconnected && device.value.sound.ops == []
      ensures game.View() == old(game.View())
      ensures fresh(Objs() - old(Objs()))
    {
      var r := new Rtc();
      rtc := Some(r);
      var d := NewDevice();
      device := Some(d);
    }

    /** The device `init_device` builds: a new tracker, a blank display and
        a disconnected sequencer. */
    static method NewDevice() returns (d: LegacyGame.Device)
      ensures fresh(d) && fresh(d.Objs()) && d.Valid()
      ensures d.buttons.state == 0 && d.display.log == []
      ensures d.sound.View() == VDisconnected && d.sound.ops == []
    {
      var gpiote := new Gpiote();
      var buttons := new ButtonState();
      var sound := new Sound.Init();
      var display := new DisplayPins();
      d := new LegacyGame.Device(display, buttons, gpiote, sound);
    }

    /** `RTC0`: one `poll` of the game. */
    method Rtc0(random: u8)
      requires Valid()
      modifies Objs()
      ensures Valid() && rtc == old(rtc) && device == old(device) && Objs() == old(Objs())
      ensures rtc.Some? ==> !rtc.value.tickEvent
      ensures device.None? ==> game.View() == old(game.View())
      ensures device.Some? ==> unchanged(device.value.gpiote)
      ensures device.Some? ==> game.Stepped(device.value, old(game.View()), old(device.value.buttons.state),
        old(device.value.display.log), old(device.value.sound.View()), old(device.value.sound.ops), random)
    {
      assert device.Some? ==> this !in game.Objs() + device.value.Objs();
      game.Poll(rtc, device, random);
    }

    /** `PWM0`: the sequencer's LOOPS_DONE handler, if the device is there. */
    method Pwm0()
      requires Valid()
      modifies Objs()
      ensures Valid() && rtc == old(rtc) && device == old(device) && Objs() == old(Objs())
      ensures device.Some? ==> device.value.sound.View() == InterruptView(old(device.value.sound.View()))
      ensures device.Some? ==> device.value.sound.ops == old(device.value.sound.ops) + InterruptOps(old(device.value.sound.View()))
      ensures device.Some? ==> unchanged(device.value.buttons, device.value.gpiote, device.value.display)
      ensures rtc.Some? ==> unchanged(rtc.value)
      ensures game.View() == old(game.View())
    {
      if device.Some? {
        var d := device.value;
        d.sound.HandleInterrupt();
      }
    }

    /** `GPIOTE`: record the A edge, then the B edge, then clear both
        events, if the device is there. */
    method Gpiote(aLow: bool, bLow: bool)
      requires Valid()
      modifies Objs()
      ensures Valid() && rtc == old(rtc) && device == old(device) && Objs() == old(Objs())
      ensures device.Some? ==>
        && device.value.buttons.state == AfterEdges(old(device.value.buttons.state),
             old(device.value.gpiote.event0), old(device.value.gpiote.event1), aLow, bLow)
        && !device.value.gpiote.event0 && !device.value.gpiote.event1
      ensures device.Some? ==> unchanged(device.value.display)
      ensures device.Some? ==>
        device.value.sound.View() == old(device.value.sound.View()) && device.value.sound.ops == old(device.value.sound.ops)
      ensures rtc.Some? ==> unchanged(rtc.value)
      ensures game.View() == old(game.View())
    {
      if device.Some? {
        var d := device.value;
        HandleEdges(d.buttons, d.gpiote, aLow, bLow);
      }
    }
  }

  /** The body of `GPIOTE` once the device is locked. */
  method HandleEdges(buttons: ButtonState, gpiote: Gpiote, aLow: bool, bLow: bool)
    modifies buttons, gpiote
    ensures buttons.state == AfterEdges(old(buttons.state), old(gpiote.event0), old(gpiote.event1), aLow, bLow)
    ensures !gpiote.event0 && !gpiote.event1
  {
    var buttonA := gpiote.event0;
    var buttonB := gpiote.event1;
    if buttonA {
      buttons.SetLastA();
      if bLow {
        buttons.SetBothPressed();
      }
    }
    if buttonB {
      buttons.SetLastB();
      if aLow {
        buttons.SetBothPressed();
      }
    }
    gpiote.ResetEvents();
  }
}
