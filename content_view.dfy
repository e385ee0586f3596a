/**
 * The logic of the main window: the tune-up and tune-down buttons, the
 * frequency slider's hertz binding and range, and the unit-preserving `+=` and
 * `-=` on measurements. Layout and styling are not modelled.
 */
module ContentView {
  import opened Measurements
  import opened Tuner

  /** `lhs += rhs`: adds `rhs` converted to `lhs`'s unit. */
  function AddAssign(lhs: Measurement, rhs: Measurement): (r: Measurement)
    ensures r.unit == lhs.unit
    ensures r.hertz == lhs.hertz + rhs.hertz
  {
    Plus(lhs, Converted(rhs, lhs.unit))
  }

  /** `lhs -= rhs`: subtracts `rhs` converted to `lhs`'s unit. */
  function SubtractAssign(lhs: Measurement, rhs: Measurement): (r: Measurement)
    ensures r.unit == lhs.unit
    ensures r.hertz == lhs.hertz - rhs.hertz
  {
    Minus(lhs, Converted(rhs, lhs.unit))
  }

  /** `-=` undoes `+=` and `+=` undoes `-=`, unit included. */
  lemma AddSubtractInverse(m: Measurement, d: Measurement)
    ensures SubtractAssign(AddAssign(m, d), d) == m
    ensures AddAssign(SubtractAssign(m, d), d) == m
  {
  }

  /** The getter of `Binding.double(from:)`: the frequency in hertz. */
  function HertzGet(m: Measurement): (x: int)
    ensures x == m.hertz
  {
    Converted(m, Hertz).hertz
  }

  /** The setter of `Binding.double(from:)`: a measurement of `x` hertz. */
  function HertzSet(x: int): (m: Measurement)
    ensures m.unit == Hertz && Value(m) == x as real
  {
    Measurement(x, Hertz)
  }

  /** After setting `x` the getter returns `x`; setting what was read keeps the quantity. */
  lemma HertzBindingRoundTrip(x: int, m: Measurement)
    ensures HertzGet(HertzSet(x)) == x
    ensures HertzSet(HertzGet(m)).hertz == m.hertz
  {
  }

  /** Bounds and step of a slider, in hertz. */
  datatype SliderRange = SliderRange(lower: int, upper: int, step: int)

  /** The frequency slider spans the band in band steps. */
  function FrequencySlider(): (s: SliderRange)
    ensures s.lower == BandMinimum.hertz && s.upper == BandMaximum.hertz && s.step == BandStep.hertz
    ensures s.lower < s.upper && s.step > 0 && (s.upper - s.lower) % s.step == 0
  {
    BandConstants();
    SliderRange(HertzGet(BandMinimum), HertzGet(BandMaximum), HertzGet(BandStep))
  }

  /** A channel of the band: within its bounds and a whole number of steps above the minimum. */
  predicate OnDial(hz: int) {
    BandMinimum.hertz <= hz <= BandMaximum.hertz && (hz - BandMinimum.hertz) % BandStep.hertz == 0
  }

  /** The frequency the up button leaves, in hertz. */
  function TunedUp(hz: int): int {
    if hz < BandMaximum.hertz then hz + BandStep.hertz else hz
  }

  /** The frequency the down button leaves, in hertz. */
  function TunedDown(hz: int): int {
    if hz > BandMinimum.hertz then hz - BandStep.hertz else hz
  }

  /** Tuning stays on the channels of the band. */
  lemma TuningStaysOnDial(hz: int)
    requires OnDial(hz)
    ensures OnDial(TunedUp(hz)) && OnDial(TunedDown(hz))
  {
  }

  /** Each button is a no-op exactly at (or beyond) its bound, and otherwise moves one step. */
  lemma TuningAtBounds(hz: int)
    ensures TunedUp(hz) == hz <==> hz >= BandMaximum.hertz
    ensures TunedDown(hz) == hz <==> hz <= BandMinimum.hertz
    ensures hz < BandMaximum.hertz ==> TunedUp(hz) - hz == BandStep.hertz
    ensures hz > BandMinimum.hertz ==> hz - TunedDown(hz) == BandStep.hertz
  {
  }

  /** Up then down restores the frequency below the maximum; down then up above the minimum. */
  lemma TuningRoundTrip(hz: int)
    ensures BandMinimum.hertz <= hz < BandMaximum.hertz ==> TunedDown(TunedUp(hz)) == hz
    ensures BandMinimum.hertz < hz <= BandMaximum.hertz ==> TunedUp(TunedDown(hz)) == hz
  {
  }

  /** The frequency after pressing the up button `n` times. */
  function TunedUpTimes(hz: int, n: nat): int {
    if n == 0 then hz else TunedUp(TunedUpTimes(hz, n - 1))
  }

  /** Repeated presses climb one step each and then stay at the band maximum. */
  lemma {:induction false} RepeatedTuneUpSaturates(hz: int, n: nat)
    requires OnDial(hz)
    ensures TunedUpTimes(hz, n) ==
      if hz + n * BandStep.hertz <= BandMaximum.hertz then hz + n * BandStep.hertz else BandMaximum.hertz
  {
    if n > 0 {
      RepeatedTuneUpSaturates(hz, n - 1);
      var k := (hz - BandMinimum.hertz) / BandStep.hertz;
      assert hz == BandMinimum.hertz + k * BandStep.hertz;
    }
  }

  /** Every channel of the band is reached from the minimum by pressing up. */
  lemma {:induction false} ChannelsReachable(hz: int)
    requires OnDial(hz)
    ensures TunedUpTimes(BandMinimum.hertz, (hz - BandMinimum.hertz) / BandStep.hertz) == hz
  {
    var k := (hz - BandMinimum.hertz) / BandStep.hertz;
    RepeatedTuneUpSaturates(BandMinimum.hertz, k);
  }

  /**
   * The up button: below the band maximum, adds one band step to the frequency,
   * which keeps its unit and, outside preview, sends the new frequency.
   */
  method TuneUp(shark: Shark)
    requires shark.Valid()
    modifies shark`frequency, shark`commands
    ensures shark.Valid()
    ensures shark.frequency.hertz == TunedUp(old(shark.frequency.hertz))
    ensures shark.frequency.unit == old(shark.frequency.unit)
    ensures shark.commands == old(shark.commands) +
      if shark.isPreview || !Less(old(shark.frequency), BandMaximum) then []
      else [CommandLine(FrequencyArgs(shark.frequency))]
  {
    if Less(shark.frequency, BandMaximum) {
      shark.SetFrequency(AddAssign(shark.frequency, BandStep));
    }
  }

  /** The down button: above the band minimum, subtracts one band step. */
  method TuneDown(shark: Shark)
    requires shark.Valid()
    modifies shark`frequency, shark`commands
    ensures shark.Valid()
    ensures shark.frequency.hertz == TunedDown(old(shark.frequency.hertz))
    ensures shark.frequency.unit == old(shark.frequency.unit)
    ensures shark.commands == old(shark.commands) +
      if shark.isPreview || !Less(BandMinimum, old(shark.frequency)) then []
      else [CommandLine(FrequencyArgs(shark.frequency))]
  {
    if Less(BandMinimum, shark.frequency) {
      shark.SetFrequency(SubtractAssign(shark.frequency, BandStep));
    }
  }

  /** Moving the frequency slider to `x` hertz sets the frequency through the binding. */
  method SlideFrequency(shark: Shark, x: int)
    requires shark.Valid()
    modifies shark`frequency, shark`commands
    ensures shark.Valid()
    ensures shark.frequency == HertzSet(x) && HertzGet(shark.frequency) == x
    ensures shark.commands == old(shark.commands) +
      if shark.isPreview then [] else [CommandLine(FrequencyArgs(HertzSet(x)))]
  {
    shark.SetFrequency(HertzSet(x));
  }
}
