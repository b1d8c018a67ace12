/** Properties of the control step that span several inputs: the invariant
    every reachable panel keeps, the inertness of the polling loop before a mode
    is chosen, the idempotence of mode selection, and the agreement of the two
    readings of the gate's absolute value. */
module LightProperties {
  import opened LightControl

  /** Every input the hardware and the widgets can produce keeps the panel
      valid, however many of them arrive. */
  lemma {:induction false} RunKeepsValid(s: Panel, es: seq<Event>)
    requires Valid(s)
    requires forall i :: 0 <= i < |es| ==> InRange(es[i])
    ensures Valid(Run(s, es))
    decreases |es|
  {
    if es != [] {
      assert InRange(es[0]);
      RunKeepsValid(Apply(s, es[0]), es[1..]);
    }
  }

  /** In particular every panel reachable from start-up is valid: the duty
      cycle is a fraction and, once the gate has forwarded a reading, the
      shown percentages sum to 100 and lie in [0,100]. */
  lemma ReachableIsValid(es: seq<Event>)
    requires forall i :: 0 <= i < |es| ==> InRange(es[i])
    ensures Valid(Run(Init, es))
    ensures 0.0 <= Run(Init, es).duty <= 1.0
    ensures Run(Init, es).gate == NeverShown || ShowsReading(Run(Init, es).gate)
  {
    RunKeepsValid(Init, es);
  }

  /** While no mode is selected, any number of passes of the polling loop read
      no sensor, write no PWM output and leave the whole panel as it was. */
  lemma {:induction false} UnselectedTicksAreInert(s: Panel, vs: seq<real>)
    requires !s.modeSelected
    ensures TickAll(s, vs) == TickRun(s, 0, 0)
    decreases |vs|
  {
    if vs != [] {
      UnselectedTicksAreInert(s, vs[..|vs| - 1]);
    }
  }

  /** Returning to the menu and then polling any number of times changes
      nothing beyond the return itself and actuates nothing. */
  lemma {:induction false} ReturnThenTicksAreInert(s: Panel, vs: seq<real>)
    ensures TickAll(ReturnToMenu(s), vs) == TickRun(ReturnToMenu(s), 0, 0)
    ensures !TickAll(ReturnToMenu(s), vs).next.modeSelected
  {
    UnselectedTicksAreInert(ReturnToMenu(s), vs);
  }

  /** In manual mode the polling loop reads the sensor on every pass but never
      writes the PWM output and never changes the panel. */
  lemma {:induction false} ManualTicksOnlySample(s: Panel, vs: seq<real>)
    requires s.modeSelected && !s.modeAuto
    ensures TickAll(s, vs) == TickRun(s, |vs|, 0)
    decreases |vs|
  {
    if vs != [] {
      ManualTicksOnlySample(s, vs[..|vs| - 1]);
    }
  }

  /** In automatic mode every pass reads the sensor and writes the PWM output,
      and the duty cycle left behind is the complement of the last reading. */
  lemma {:induction false} AutoTicksDriveLed(s: Panel, vs: seq<real>)
    requires s.modeSelected && s.modeAuto
    ensures TickAll(s, vs).sensorReads == |vs| && TickAll(s, vs).ledWrites == |vs|
    ensures TickAll(s, vs).next.modeSelected && TickAll(s, vs).next.modeAuto
    ensures vs != [] ==> TickAll(s, vs).next.duty == 1.0 - vs[|vs| - 1]
    decreases |vs|
  {
    if vs != [] {
      AutoTicksDriveLed(s, vs[..|vs| - 1]);
    }
  }

  /** `n` copies of one input. */
  function Repeat(e: Event, n: nat): (es: seq<Event>)
    ensures |es| == n
    ensures forall i :: 0 <= i < n ==> es[i] == e
  {
    if n == 0 then [] else [e] + Repeat(e, n - 1)
  }

  /** Pressing the same menu button several times in a row leaves the same
      panel as pressing it once. */
  lemma {:induction false} RepeatedSelectionIsIdempotent(s: Panel, id: nat, n: nat)
    requires n >= 1
    ensures Run(s, Repeat(ModeButton(id), n)) == SelectMode(s, id)
    decreases n
  {
    var es := Repeat(ModeButton(id), n);
    assert es[0] == ModeButton(id) && es[1..] == Repeat(ModeButton(id), n - 1);
    if n == 1 {
      assert Run(SelectMode(s, id), []) == SelectMode(s, id);
    } else {
      RepeatedSelectionIsIdempotent(SelectMode(s, id), id, n - 1);
      assert SelectMode(SelectMode(s, id), id) == SelectMode(s, id);
    }
  }

  /** C's conversion of a floating-point value to an integer: truncation
      toward zero. */
  function TruncToInt(x: real): (n: int)
    ensures Abs(x - n as real) < 1.0
    ensures 0.0 <= x ==> 0 <= n && n as real <= x
    ensures x < 0.0 ==> n <= 0 && x <= n as real
  {
    if x >= 0.0 then x.Floor else -((-x).Floor)
  }

  function AbsInt(n: int): nat
  {
    if n < 0 then -n else n
  }

  /** C's `int abs(int)` applied to a difference converted to `int`. It
      reaches 2 exactly when the real difference does. */
  function IntAbsOfTrunc(d: real): (n: nat)
    ensures n >= 2 <==> Abs(d) >= Threshold
  {
    AbsInt(TruncToInt(d))
  }

  /** The gate's test as compiled when its unqualified `abs` binds to C's
      `int abs(int)`: each difference is first truncated toward zero. Against
      the threshold 2 it decides exactly as the test on real differences. */
  predicate MovedWithIntAbs(g: Gate, lum: real, inten: real): (b: bool)
    ensures b <==> Moved(g, lum, inten)
  {
    IntAbsOfTrunc(lum - g.lastLum) >= 2 || IntAbsOfTrunc(inten - g.lastInt) >= 2
  }
}
