/** The program's globals and handlers as an object whose methods update its
    fields in place, each proved against the transition function of
    `LightControl` that specifies it. */
module Controller {
  import opened LightControl

  class LightController {
    var modeSelected: bool
    var modeAuto: bool
    var lastLuminosite: real
    var lastIntensite: real
    /** Duty cycle last written to the PWM output. */
    var duty: real
    var screen: Screen

    /** The abstract panel these fields hold. */
    function State(): Panel
      reads this
    {
      Panel(modeSelected, modeAuto, Gate(lastLuminosite, lastIntensite), duty, screen)
    }

    /** Start-up: no mode selected, the gate at its sentinel -1, the menu shown. */
    constructor ()
      ensures State() == Init
      ensures Valid(State())
    {
      modeSelected := false;
      modeAuto := false;
      lastLuminosite := -1.0;
      lastIntensite := -1.0;
      duty := 0.0;
      screen := Menu;
    }

    /** switch_page with the id of the pressed menu button. */
    method SwitchPage(id: nat)
      modifies this
      ensures State() == SelectMode(old(State()), id)
      ensures modeSelected && (modeAuto <==> id == 0)
      ensures lastLuminosite == old(lastLuminosite) && lastIntensite == old(lastIntensite)
      ensures duty == old(duty)
    {
      modeSelected := true;
      if id == 0 {
        modeAuto := true;
        screen := AutoPage(None, None);
      } else {
        modeAuto := false;
        screen := ManualPage(0);
      }
    }

    /** return_event_cb. */
    method ReturnToMenu()
      modifies this
      ensures State() == LightControl.ReturnToMenu(old(State()))
      ensures !modeSelected && modeAuto == old(modeAuto)
      ensures lastLuminosite == old(lastLuminosite) && lastIntensite == old(lastIntensite)
      ensures duty == old(duty)
    {
      screen := Menu;
      modeSelected := false;
    }

    /** update_auto_page with the sensor value `valeurCapteur`; `refreshed`
        tells whether the labels were rewritten. */
    method UpdateAutoPage(valeurCapteur: real) returns (refreshed: bool)
      modifies this
      ensures State() == LightControl.UpdateAutoPage(old(State()), valeurCapteur).next
      ensures refreshed == LightControl.UpdateAutoPage(old(State()), valeurCapteur).refreshed
      ensures !old(modeAuto) ==> !refreshed && State() == old(State())
    {
      refreshed := false;
      if modeAuto {
        var luminositePct := valeurCapteur * 100.0;
        var intensitePct := (1.0 - valeurCapteur) * 100.0;
        if Abs(luminositePct - lastLuminosite) >= 2.0 || Abs(intensitePct - lastIntensite) >= 2.0 {
          if screen.AutoPage? {
            screen := AutoPage(Some(luminositePct), Some(intensitePct));
          }
          lastLuminosite := luminositePct;
          lastIntensite := intensitePct;
          refreshed := true;
        }
      }
    }

    /** slider_event_cb with the slider's value. */
    method SliderChanged(value: int)
      modifies this
      ensures State() == LightControl.SliderChanged(old(State()), value)
      ensures old(modeAuto) ==> State() == old(State())
      ensures !old(modeAuto) ==> duty * 100.0 == value as real
    {
      if !modeAuto {
        if screen.ManualPage? {
          screen := ManualPage(value);
        }
        duty := (1.0 / 100.0) * (value as real);
      }
    }

    /** One pass of the body of the polling loop, the sensor delivering `v`
        if it is read. */
    method Tick(v: real) returns (sampled: bool, ledWritten: bool)
      modifies this
      ensures State() == TickStep(old(State()), v).next
      ensures sampled == old(modeSelected)
      ensures ledWritten == (old(modeSelected) && old(modeAuto))
      ensures ledWritten ==> duty == 1.0 - v
    {
      sampled, ledWritten := false, false;
      if modeSelected {
        var valeurCapteur := v;
        sampled := true;
        if modeAuto {
          var luminositeLed := 1.0 - valeurCapteur;
          duty := luminositeLed;
          ledWritten := true;
          var _ := UpdateAutoPage(valeurCapteur);
        }
      }
    }

    /** The polling loop run for as many passes as there are sensor values in
        `readings`, counting the sensor reads and PWM writes it makes. */
    method PollLoop(readings: seq<real>) returns (sensorReads: nat, ledWrites: nat)
      modifies this
      ensures TickAll(old(State()), readings) == TickRun(State(), sensorReads, ledWrites)
      ensures Valid(old(State())) && ReadingsInRange(readings) ==> Valid(State())
    {
      sensorReads, ledWrites := 0, 0;
      var i := 0;
      while i < |readings|
        invariant 0 <= i <= |readings|
        invariant TickAll(old(State()), readings[..i]) == TickRun(State(), sensorReads, ledWrites)
        invariant Valid(old(State())) && ReadingsInRange(readings) ==> Valid(State())
      {
        assert readings[..i + 1][..i] == readings[..i];
        ghost var before := State();
        var sampled, written := Tick(readings[i]);
        assert State() == Apply(before, Event.Tick(readings[i]));
        if sampled {
          sensorReads := sensorReads + 1;
        }
        if written {
          ledWrites := ledWrites + 1;
        }
        i := i + 1;
      }
      assert readings[..i] == readings;
    }
  }
}
