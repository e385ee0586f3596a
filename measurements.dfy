/**
 * Foundation's `Measurement<UnitFrequency>`, restricted to the three units the
 * radio uses. A measurement is held as its quantity in whole hertz together with
 * the unit it is expressed in; `converted(to:)` changes only the unit.
 */
module Measurements {

  datatype FrequencyUnit = Hertz | Kilohertz | Megahertz

  /** How many hertz make one of `u`. Hertz is the base unit of UnitFrequency. */
  function HertzPerUnit(u: FrequencyUnit): (n: nat)
    ensures n >= 1
    ensures n == 1 <==> u == Hertz
  {
    match u
    case Hertz => 1
    case Kilohertz => 1_000
    case Megahertz => 1_000_000
  }

  datatype Measurement = Measurement(hertz: int, unit: FrequencyUnit)

  /** The `value` property of a measurement: its quantity counted in its own unit. */
  function Value(m: Measurement): (v: real)
    ensures v * HertzPerUnit(m.unit) as real == m.hertz as real
  {
    m.hertz as real / HertzPerUnit(m.unit) as real
  }

  /** `m.converted(to: u)`: the same quantity expressed in `u`. */
  function Converted(m: Measurement, u: FrequencyUnit): (r: Measurement)
    ensures r.unit == u && r.hertz == m.hertz
    ensures Value(r) * HertzPerUnit(u) as real == Value(m) * HertzPerUnit(m.unit) as real
  {
    Measurement(m.hertz, u)
  }

  /** Measurements compare by quantity, whatever their units. */
  predicate Less(a: Measurement, b: Measurement) {
    a.hertz < b.hertz
  }

  /**
   * Foundation's `+`: two measurements in the same unit add in that unit;
   * in different units both are converted to the base unit (hertz) first.
   */
  function Plus(a: Measurement, b: Measurement): (r: Measurement)
    ensures r.hertz == a.hertz + b.hertz
    ensures r.unit == (if a.unit == b.unit then a.unit else Hertz)
  {
    if a.unit == b.unit then Measurement(a.hertz + b.hertz, a.unit)
    else Measurement(a.hertz + b.hertz, Hertz)
  }

  /** Foundation's `-`, with the same unit rule as `+`. */
  function Minus(a: Measurement, b: Measurement): (r: Measurement)
    ensures r.hertz == a.hertz - b.hertz
    ensures r.unit == (if a.unit == b.unit then a.unit else Hertz)
  {
    if a.unit == b.unit then Measurement(a.hertz - b.hertz, a.unit)
    else Measurement(a.hertz - b.hertz, Hertz)
  }
}
