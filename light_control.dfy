/** The mode-controlled light-to-LED control step of the board demo, as pure
    state-transition functions.

    A `Panel` holds the process-wide globals of the program: whether a mode has
    been chosen (`modeSelected`), whether that mode is automatic (`modeAuto`),
    the refresh gate's memory of the last percentages shown, the duty cycle last
    commanded on the PWM output, and which readings the screen's labels show.
    Floating-point values are exact reals. Each handler of the program is one
    function from the old panel to the new one. */
module LightControl {

  datatype Option<T> = None | Some(value: T)

  /** The refresh gate's memory: the last luminosity and LED-intensity
      percentages forwarded to the labels. */
  datatype Gate = Gate(lastLum: real, lastInt: real)

  /** What the screen shows. Only the readings written into the labels are
      kept, not their text: the automatic page's two labels hold no number
      until the gate first forwards one; the manual page's label holds the
      slider percentage. */
  datatype Screen =
    | Menu
    | AutoPage(shownLum: Option<real>, shownInt: Option<real>)
    | ManualPage(sliderPct: int)

  datatype Panel = Panel(
    modeSelected: bool,
    modeAuto: bool,
    gate: Gate,
    duty: real,
    screen: Screen)

  /** The gate's start value -1, which no real percentage equals. */
  const NeverShown: Gate := Gate(-1.0, -1.0)

  /** Both mode flags false, the gate at its sentinel, the PWM output at duty 0
      and the mode menu on screen. */
  const Init: Panel := Panel(false, false, NeverShown, 0.0, Menu)

  /** Minimum change, in percentage points, that the gate forwards. */
  const Threshold: real := 2.0

  function Abs(x: real): real
  {
    if x < 0.0 then -x else x
  }

  /** Ambient luminosity, in percent, of a normalized sensor reading. */
  function LuminosityPct(v: real): (p: real)
    ensures 0.0 <= v <= 1.0 ==> 0.0 <= p <= 100.0
  {
    v * 100.0
  }

  /** LED intensity, in percent, shown for a sensor reading: the complement of
      the luminosity. */
  function IntensityPct(v: real): (p: real)
    ensures p + LuminosityPct(v) == 100.0
    ensures 0.0 <= v <= 1.0 ==> 0.0 <= p <= 100.0
  {
    (1.0 - v) * 100.0
  }

  /** Duty cycle commanded in automatic mode: the darker the room, the brighter
      the LED. It is the intensity percentage shown, as a fraction. */
  function AutoDuty(v: real): (d: real)
    ensures d + v == 1.0
    ensures d * 100.0 == IntensityPct(v)
    ensures 0.0 <= v <= 1.0 <==> 0.0 <= d <= 1.0
  {
    1.0 - v
  }

  /** Duty cycle commanded by the slider value: one hundredth of it. */
  function SliderDuty(value: int): (d: real)
    ensures d * 100.0 == value as real
    ensures 0 <= value <= 100 <==> 0.0 <= d <= 1.0
  {
    (1.0 / 100.0) * (value as real)
  }

  /** The gate's test: has either percentage moved by at least the threshold
      from the value last shown? */
  predicate Moved(g: Gate, lum: real, inten: real)
  {
    Abs(lum - g.lastLum) >= Threshold || Abs(inten - g.lastInt) >= Threshold
  }

  /** A gate that has forwarded a real reading holds two complementary
      percentages. */
  predicate ShowsReading(g: Gate)
  {
    g.lastLum + g.lastInt == 100.0 && 0.0 <= g.lastLum <= 100.0 && 0.0 <= g.lastInt <= 100.0
  }

  datatype Offered = Offered(gate: Gate, refreshed: bool)

  /** Offers a pair of percentages to the gate: it stores and forwards the pair
      exactly when one of them moved by at least the threshold. */
  function Offer(g: Gate, lum: real, inten: real): (r: Offered)
    ensures r.refreshed <==> Abs(lum - g.lastLum) >= 2.0 || Abs(inten - g.lastInt) >= 2.0
    ensures r.refreshed ==> r.gate == Gate(lum, inten)
    ensures !r.refreshed ==> r.gate == g
    // whatever the outcome, the stored pair is within the threshold of the offered one
    ensures Abs(lum - r.gate.lastLum) < 2.0 && Abs(inten - r.gate.lastInt) < 2.0
    // the sentinel lets any complementary pair through
    ensures g == NeverShown && lum + inten == 100.0 ==> r.refreshed
  {
    if Moved(g, lum, inten) then Offered(Gate(lum, inten), true) else Offered(g, false)
  }

  datatype Refresh = Refresh(next: Panel, refreshed: bool)

  /** update_auto_page: in automatic mode, offers the reading's two percentages
      to the gate and, when it forwards them, writes them into the labels of the
      automatic page. */
  function UpdateAutoPage(s: Panel, v: real): (r: Refresh)
    ensures !s.modeAuto ==> r.next == s && !r.refreshed
    ensures s.modeAuto ==>
      (r.refreshed <==> Moved(s.gate, LuminosityPct(v), IntensityPct(v)))
    ensures !r.refreshed ==> r.next == s
    ensures r.refreshed ==>
      && r.next.gate == Gate(LuminosityPct(v), IntensityPct(v))
      && r.next.modeSelected == s.modeSelected
      && r.next.modeAuto == s.modeAuto
      && r.next.duty == s.duty
      && (s.screen.AutoPage? ==>
            r.next.screen == AutoPage(Some(LuminosityPct(v)), Some(IntensityPct(v))))
      && (!s.screen.AutoPage? ==> r.next.screen == s.screen)
    ensures s.modeAuto && s.gate == NeverShown ==> r.refreshed
    ensures s.modeAuto ==>
      Abs(r.next.gate.lastLum - LuminosityPct(v)) < 2.0 &&
      Abs(r.next.gate.lastInt - IntensityPct(v)) < 2.0
    ensures r.refreshed && 0.0 <= v <= 1.0 ==> ShowsReading(r.next.gate)
  {
    if s.modeAuto then
      var lum := LuminosityPct(v);
      var inten := IntensityPct(v);
      var o := Offer(s.gate, lum, inten);
      if o.refreshed then
        var screen := if s.screen.AutoPage? then AutoPage(Some(lum), Some(inten)) else s.screen;
        Refresh(s.(gate := o.gate, screen := screen), true)
      else
        Refresh(s, false)
    else
      Refresh(s, false)
  }

  /** What one pass of the polling loop did: the new panel, whether it read the
      sensor, whether it wrote the PWM output, whether the labels were
      refreshed. */
  datatype Ticked = Ticked(next: Panel, sampled: bool, ledWritten: bool, refreshed: bool)

  /** One pass of the polling loop with sensor value `v`: once a mode is
      selected the sensor is read; in automatic mode the LED is driven to the
      complement of the reading and the automatic page is refreshed. */
  function TickStep(s: Panel, v: real): (r: Ticked)
    ensures r.sampled == s.modeSelected
    ensures r.ledWritten == (s.modeSelected && s.modeAuto)
    ensures !r.ledWritten ==> r.next == s && !r.refreshed
    ensures r.ledWritten ==>
      && r.next.duty == 1.0 - v
      && r.next.modeSelected && r.next.modeAuto
      && r.refreshed == Moved(s.gate, LuminosityPct(v), IntensityPct(v))
      && r.next.gate == (if r.refreshed then Gate(LuminosityPct(v), IntensityPct(v)) else s.gate)
    ensures r.ledWritten && 0.0 <= v <= 1.0 ==> 0.0 <= r.next.duty <= 1.0
  {
    if s.modeSelected then
      if s.modeAuto then
        var u := UpdateAutoPage(s.(duty := AutoDuty(v)), v);
        Ticked(u.next, true, true, u.refreshed)
      else
        Ticked(s, true, false, false)
    else
      Ticked(s, false, false, false)
  }

  /** switch_page: button 0 of the menu selects automatic mode and any other
      button manual mode; the chosen page replaces the menu. */
  function SelectMode(s: Panel, id: nat): (r: Panel)
    ensures r.modeSelected
    ensures r.modeAuto <==> id == 0
    ensures r.gate == s.gate && r.duty == s.duty
    ensures r.screen == if id == 0 then AutoPage(None, None) else ManualPage(0)
  {
    if id == 0 then
      s.(modeSelected := true, modeAuto := true, screen := AutoPage(None, None))
    else
      s.(modeSelected := true, modeAuto := false, screen := ManualPage(0))
  }

  /** return_event_cb: back to the menu. Only the selection flag is cleared; the
      mode, the gate's memory and the duty cycle persist. */
  function ReturnToMenu(s: Panel): (r: Panel)
    ensures !r.modeSelected && r.screen == Menu
    ensures r.modeAuto == s.modeAuto && r.gate == s.gate && r.duty == s.duty
  {
    s.(modeSelected := false, screen := Menu)
  }

  /** slider_event_cb: outside automatic mode the slider value is shown on the
      manual page's label and commanded as duty value/100; the gate is neither
      consulted nor changed. In automatic mode nothing happens. */
  function SliderChanged(s: Panel, value: int): (r: Panel)
    ensures s.modeAuto ==> r == s
    ensures !s.modeAuto ==>
      && r.duty * 100.0 == value as real
      && r.modeSelected == s.modeSelected && !r.modeAuto
      && r.gate == s.gate
      && r.screen == (if s.screen.ManualPage? then ManualPage(value) else s.screen)
    ensures !s.modeAuto && 0 <= value <= 100 ==> 0.0 <= r.duty <= 1.0
  {
    if !s.modeAuto then
      var screen := if s.screen.ManualPage? then ManualPage(value) else s.screen;
      s.(duty := SliderDuty(value), screen := screen)
    else
      s
  }

  /** Inputs reaching the core: a menu button, the return button, one pass of
      the polling loop with the sensor's value, a slider change. */
  datatype Event =
    | ModeButton(id: nat)
    | ReturnButton
    | Tick(reading: real)
    | Slider(value: int)

  /** Inputs the hardware and the widgets can produce: a sensor value in [0,1]
      and a slider value in its range 0..100. */
  predicate InRange(e: Event)
  {
    match e
    case Tick(v) => 0.0 <= v <= 1.0
    case Slider(value) => 0 <= value <= 100
    case _ => true
  }

  /** Sensor values as the analog input delivers them, in [0,1]. */
  predicate ReadingsInRange(vs: seq<real>)
  {
    forall i :: 0 <= i < |vs| ==> 0.0 <= vs[i] <= 1.0
  }

  /** The labels of the automatic page, once filled, show what the gate
      remembers. */
  predicate ScreenAgreesWithGate(s: Panel)
  {
    s.screen.AutoPage? ==>
      (s.screen.shownLum.Some? ==> s.screen.shownLum.value == s.gate.lastLum) &&
      (s.screen.shownInt.Some? ==> s.screen.shownInt.value == s.gate.lastInt)
  }

  /** What every reachable panel satisfies: the gate holds its sentinel or a
      complementary pair, the duty cycle is a fraction, the page on screen is the
      one the mode flags call for, and the automatic page shows the gate's
      memory. */
  predicate Valid(s: Panel)
  {
    && (s.gate == NeverShown || ShowsReading(s.gate))
    && 0.0 <= s.duty <= 1.0
    && (!s.modeSelected <==> s.screen.Menu?)
    && (s.modeSelected && s.modeAuto ==> s.screen.AutoPage?)
    && (s.modeSelected && !s.modeAuto ==> s.screen.ManualPage?)
    && ScreenAgreesWithGate(s)
  }

  /** The effect of one input on the panel. */
  function Apply(s: Panel, e: Event): (r: Panel)
    ensures Valid(s) && InRange(e) ==> Valid(r)
  {
    match e
    case ModeButton(id) => SelectMode(s, id)
    case ReturnButton => ReturnToMenu(s)
    case Tick(v) => TickStep(s, v).next
    case Slider(value) => SliderChanged(s, value)
  }

  /** The panel after a sequence of inputs, handled one at a time. */
  function Run(s: Panel, es: seq<Event>): Panel
    decreases |es|
  {
    if es == [] then s else Run(Apply(s, es[0]), es[1..])
  }

  datatype TickRun = TickRun(next: Panel, sensorReads: nat, ledWrites: nat)

  /** Successive passes of the polling loop with the given sensor values,
      counting the sensor reads and PWM writes made. */
  function TickAll(s: Panel, vs: seq<real>): TickRun
  {
    if vs == [] then TickRun(s, 0, 0)
    else
      var before := TickAll(s, vs[..|vs| - 1]);
      var t := TickStep(before.next, vs[|vs| - 1]);
      TickRun(t.next,
              before.sensorReads + (if t.sampled then 1 else 0),
              before.ledWrites + (if t.ledWritten then 1 else 0))
  }
}
