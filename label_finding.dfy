/** The refresh gate's memory outlives the automatic page it was filled for.

    Selecting automatic mode builds a fresh automatic page whose labels carry
    no number, but neither the return to the menu nor the selection resets the
    gate to its sentinel. If the light has moved by less than the threshold
    since the page was last left, the gate suppresses every update and the new
    labels stay empty until the light changes by two points. The sentinel's
    purpose, a guaranteed first display, is lost after the first visit.

    `StaleLabelsOnReentry` exhibits this on the model of the code as written;
    `SelectModeFresh` is the selection that also resets the gate, and
    `FreshSelectionShowsFirstReading` proves that with it the first pass of the
    polling loop always fills the labels. */
module LabelFinding {
  import opened LightControl

  /** As written: re-entering automatic mode under unchanged light leaves the
      labels of the new page empty after the next pass of the polling loop,
      whatever the gate remembered from the previous visit. */
  lemma SteadyLightKeepsNewPageBlank(s: Panel, v: real)
    requires s.gate == Gate(LuminosityPct(v), IntensityPct(v))
    ensures !TickStep(SelectMode(s, 0), v).refreshed
    ensures TickStep(SelectMode(s, 0), v).next.screen == AutoPage(None, None)
  {
  }

  /** The concrete trace from start-up: automatic mode, one reading of 0.5,
      back to the menu, automatic mode again, the same reading. The second
      automatic page shows no number. */
  lemma StaleLabelsOnReentry()
    ensures var es := [ModeButton(0), Tick(0.5), ReturnButton, ModeButton(0), Tick(0.5)];
            Run(Init, es).modeSelected && Run(Init, es).modeAuto &&
            Run(Init, es).screen == AutoPage(None, None)
  {
  }

  /** The evidently intended selection: as `SelectMode`, and the gate forgets
      what it showed on an earlier page. */
  function SelectModeFresh(s: Panel, id: nat): (r: Panel)
    ensures r.modeSelected && (r.modeAuto <==> id == 0)
    ensures r.gate == NeverShown && r.duty == s.duty
    ensures r.screen == if id == 0 then AutoPage(None, None) else ManualPage(0)
    ensures Valid(s) ==> Valid(r)
  {
    SelectMode(s, id).(gate := NeverShown)
  }

  /** With the corrected selection, the first pass of the polling loop after
      choosing automatic mode always fills both labels with the reading. */
  lemma FreshSelectionShowsFirstReading(s: Panel, v: real)
    ensures TickStep(SelectModeFresh(s, 0), v).refreshed
    ensures TickStep(SelectModeFresh(s, 0), v).next.screen
              == AutoPage(Some(LuminosityPct(v)), Some(IntensityPct(v)))
  {
  }
}
