# Light-to-LED control step of the mbed F746 demo

The demo reads an ambient-light sensor and drives an LED's brightness by PWM.
A touchscreen menu chooses between an automatic mode, where the LED duty cycle
is the complement of the light reading, and a manual mode, where a slider sets
it. In automatic mode a refresh gate forwards the two displayed percentages to
the screen only when one of them has moved by at least 2 points since the last
value shown; its memory starts at the sentinel -1.

This project models that control step of `src/main.cpp`:

- `LightControl` (`light_control.dfy`) holds the pure model. A `Panel` value
  carries the globals `modeSelected` and `modeAuto`, the gate's memory
  `lastLuminosite`/`lastIntensite` (as `Gate`), the duty cycle last commanded,
  and which readings the labels show (`Screen`). Each handler is a function
  from panel to panel: `SelectMode` (switch_page), `ReturnToMenu`
  (return_event_cb), `UpdateAutoPage` with the gate `Offer`, `SliderChanged`
  (slider_event_cb) and `TickStep` (one pass of the `while (1)` body).
  `Apply` and `Run` feed a sequence of inputs through them; `TickAll` runs
  successive passes of the polling loop and counts sensor reads and PWM writes.
  `Valid` is the invariant every reachable panel satisfies.
- `Controller` (`controller.dfy`) is the same state as a class whose fields are
  the globals and whose methods assign them in place, as the handlers do. Each
  method is proved to leave `State()` equal to its transition function applied
  to the old state. `PollLoop` runs the polling loop over a finite sequence of
  sensor values.
- `LightProperties` (`properties.dfy`) proves the properties that span several
  inputs.
- `LabelFinding` (`label_finding.dfy`) holds the finding below.

Floats are exact reals. The sensor value is a parameter of each tick. The duty
cycle is a field holding the value last written to the PWM output; it starts at
0.

Three behaviours of the code that an idealised design would drop are kept:

- A tick reads the sensor whenever a mode is selected, manual mode included. It
  writes the LED only in automatic mode.
- The slider handler is guarded by `!modeAuto`, not by `modeSelected`.
- Returning to the menu clears only `modeSelected`. `modeAuto` and the gate's
  memory persist.

## Model

| member | source | states |
|---|---|---|
| LightControl.LuminosityPct | src/main.cpp:56 | the luminosity percentage of a reading in [0,1] lies in [0,100] |
| LightControl.IntensityPct | src/main.cpp:57 | the intensity percentage complements the luminosity percentage to 100 and lies in [0,100] for a reading in [0,1] |
| LightControl.AutoDuty | src/main.cpp:213 | the automatic duty plus the reading is 1; it is the displayed intensity percentage over 100; it lies in [0,1] exactly when the reading does |
| LightControl.SliderDuty | src/main.cpp:90 | the manual duty is the slider value over 100, and lies in [0,1] exactly when the value lies in 0..100 |
| LightControl.Offer | src/main.cpp:60-76 | the gate forwards and stores the pair iff either percentage moved by at least 2; otherwise its memory is unchanged; afterwards its memory is within 2 of the offered pair; from the sentinel -1 any pair summing to 100 is forwarded |
| LightControl.UpdateAutoPage | src/main.cpp:53-78 | no change at all when `modeAuto` is false; in automatic mode it refreshes iff the gate test holds, then stores both percentages and shows them on the automatic page, touching neither mode flag nor the duty; a first call from the sentinel always refreshes; after it the stored values are within 2 of the reading's; a refreshed pair from a reading in [0,1] sums to 100 with both in [0,100] |
| LightControl.TickStep | src/main.cpp:210-218 | the sensor is read iff a mode is selected; the LED is written iff a mode is selected and it is automatic, then with duty 1 - v (in [0,1] for v in [0,1]) and the gate updated as the gate test says; otherwise nothing in the state changes |
| LightControl.SelectMode | src/main.cpp:173-181 | selection sets `modeSelected`, sets `modeAuto` iff the button id is 0, keeps the gate and the duty, and shows the automatic page with empty labels or the manual page at 0 % |
| LightControl.ReturnToMenu | src/main.cpp:95-98 | return clears `modeSelected` and shows the menu; `modeAuto`, the gate's memory and the duty persist |
| LightControl.SliderChanged | src/main.cpp:81-92 | in automatic mode nothing changes; otherwise the duty becomes value/100 (in [0,1] for a value in 0..100), the manual label shows the value, and the mode flags and the gate are untouched |
| LightControl.Apply | src/main.cpp:15-20 | every handler, fed an input the hardware and widgets can produce, keeps the panel valid |
| LightProperties.RunKeepsValid | src/main.cpp:15-20 | any sequence of in-range inputs keeps a valid panel valid |
| LightProperties.ReachableIsValid | src/main.cpp:56-75 | from start-up, the duty stays in [0,1] and the gate holds either the sentinel or two percentages summing to 100, each in [0,100] |
| LightProperties.UnselectedTicksAreInert | src/main.cpp:209-218 | while no mode is selected, any number of ticks read no sensor, write no LED and change nothing |
| LightProperties.ReturnThenTicksAreInert | src/main.cpp:95-98 | a return followed by any number of ticks leaves the mode unselected and actuates nothing |
| LightProperties.ManualTicksOnlySample | src/main.cpp:210-212 | in manual mode every tick reads the sensor, none writes the LED, and the state is unchanged |
| LightProperties.AutoTicksDriveLed | src/main.cpp:212-214 | in automatic mode every tick reads the sensor and writes the LED, and the duty left is 1 minus the last reading |
| LightProperties.RepeatedSelectionIsIdempotent | src/main.cpp:173-181 | pressing the same menu button n >= 1 times gives the state of pressing it once |
| LightProperties.TruncToInt | src/main.cpp:60 | C's float-to-int conversion truncates toward zero: the result is within 1 of the value and no farther from zero |
| LightProperties.IntAbsOfTrunc | src/main.cpp:60 | C's `int abs(int)` of a difference truncated to `int` is at least 2 iff the exact absolute difference is at least 2 |
| LightProperties.MovedWithIntAbs | src/main.cpp:60 | the gate test computed with C's `int abs(int)` on truncated differences holds iff the test on exact real differences holds, so the gate decides the same whichever overload of `abs` is bound |
| Controller.LightController.constructor | src/main.cpp:15-20 | start-up state: no mode, not automatic, gate at -1, duty 0, menu shown |
| Controller.LightController.SwitchPage | src/main.cpp:167-182 | assigns the fields as `SelectMode` says; the gate fields and the duty are unchanged |
| Controller.LightController.ReturnToMenu | src/main.cpp:95-98 | assigns the fields as `ReturnToMenu` says; only `modeSelected` and the screen change |
| Controller.LightController.UpdateAutoPage | src/main.cpp:53-78 | assigns the fields and reports the refresh as `UpdateAutoPage` says; a no-op when `modeAuto` is false |
| Controller.LightController.SliderChanged | src/main.cpp:81-92 | assigns the fields as `SliderChanged` says; a no-op in automatic mode |
| Controller.LightController.Tick | src/main.cpp:210-218 | assigns the fields as `TickStep` says and reports whether the sensor was read and the LED written |
| Controller.LightController.PollLoop | src/main.cpp:209-220 | the loop's final state and its sensor-read and LED-write counts are those of `TickAll`; with readings in [0,1] it keeps the state valid |
| LabelFinding.SteadyLightKeepsNewPageBlank | src/main.cpp:119-126 | as written, re-entering automatic mode under the light last shown leaves the new page's labels empty after the next tick |
| LabelFinding.StaleLabelsOnReentry | src/main.cpp:95-98 | a concrete start-up trace that ends on the automatic page with empty labels |
| LabelFinding.SelectModeFresh | src/main.cpp:173-177 | the corrected selection: as `SelectMode`, and the gate is reset to its sentinel; it keeps a valid panel valid |
| LabelFinding.FreshSelectionShowsFirstReading | src/main.cpp:19-20 | with the corrected selection the first tick in automatic mode always fills both labels with the reading |

## Findings

| source | as written | input that shows it | evidently intended | confidence | as-written member | corrected member |
|---|---|---|---|---|---|---|
| src/main.cpp:95-98 | neither return_event_cb nor switch_page resets `lastLuminosite`/`lastIntensite`, while create_auto_page builds labels with no number | select automatic, tick with 0.5, return, select automatic, tick with 0.5: the gate suppresses the update and the new labels stay empty until the light moves by 2 points | every new automatic page shows the first reading, as the sentinel -1 guarantees on the first visit | medium, not executed | LabelFinding.StaleLabelsOnReentry | LabelFinding.FreshSelectionShowsFirstReading |

The rest of the model (`LightControl`, `Controller`) keeps the behaviour as
written, gate memory persisting across a return.

## Left out

- LVGL widget creation, styles, alignment and label text (`init_styles`, `create_auto_page`, `create_manual_page`, the menu rebuilt in `return_event_cb`): a third-party toolkit. Only which numbers the labels show is kept, as `Screen`.
- The `snprintf` formatting of `%.2f` and `%d` label texts and the `printf` of `led.read()` at src/main.cpp:217: text formatting and a logging sink.
- `threadLvgl.lock()`/`unlock()` and the interleaving of the polling thread with the LVGL callbacks: concurrency. Each handler is treated as atomic.
- `AnalogIn::read`, `PwmOut::period`/`write`/`read` and `ThisThread::sleep_for(10ms)`: hardware and timing. The sensor value is a parameter, the duty a field, and the infinite loop a finite `PollLoop` over the values the sensor delivers. What the PWM hardware does with an out-of-range duty is not modelled.
- IEEE single-precision rounding: the percentages and duties are exact reals, so `(1.0f / 100) * value` is exactly value/100.
- The widths of `uint32_t id` and `int16_t value`: ids are natural numbers, slider values integers; the slider's range 0..100 (src/main.cpp:145) appears as a hypothesis of the range properties, not a precondition.
- Writes to labels of a page that is not on screen: the model updates `Screen` only when the page the label belongs to is displayed, since slider events and automatic refreshes only occur while their page exists.
