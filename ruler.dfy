/**
 * The tick marks of `RulerView`: the values the drawing loop visits, whether
 * each is a major tick, and which carry a label. Values are whole hertz, as in
 * the ruler's preview, where the double arithmetic is exact. Pixel positions,
 * fonts and drawing are not modelled.
 */
module Ruler {
  import opened Wrappers

  /** The quotient of `a` by a positive `n`, rounded toward zero. */
  function QuotientTowardZero(a: int, n: int): int
    requires n > 0
  {
    if a >= 0 then a / n else -((-a) / n)
  }

  /**
   * `a.truncatingRemainder(dividingBy: b)`: the remainder of the division that
   * rounds toward zero, so it has the sign of `a`; the sign of `b` does not matter.
   */
  function TruncatingRemainder(a: int, b: int): (r: int)
    requires b != 0
    ensures a >= 0 ==> 0 <= r < Abs(b)
    ensures a < 0 ==> 0 < r + Abs(b) && r <= 0
    ensures r == a - QuotientTowardZero(a, Abs(b)) * Abs(b)
  {
    if a >= 0 then a % Abs(b) else -((-a) % Abs(b))
  }

  /**
   * `a.truncatingRemainder(dividingBy: b) < 1`. Dividing by zero gives NaN,
   * which compares false.
   */
  predicate RemainderBelowOne(a: int, b: int) {
    b != 0 && TruncatingRemainder(a, b) < 1
  }

  /** The text under a labelled tick: a quotient, or infinity/NaN when dividing by zero. */
  datatype LabelValue = Quotient(q: real) | NonFinite

  datatype Tick = Tick(value: int, isMajor: bool, caption: Option<LabelValue>)

  /** How the loop classifies and labels the tick at `value`. */
  function MakeTick(value: int, majorTick: int, labelTick: Option<int>, labelUnit: Option<int>): Tick {
    var divisor := labelUnit.GetOr(majorTick);
    Tick(
      value,
      RemainderBelowOne(value, majorTick),
      if RemainderBelowOne(value, labelTick.GetOr(majorTick)) then
        Some(if divisor == 0 then NonFinite else Quotient(value as real / divisor as real))
      else None)
  }

  /** For non-negative values a tick is major exactly at the multiples of `majorTick`. */
  lemma MajorAtMultiples(value: int, majorTick: int, labelTick: Option<int>, labelUnit: Option<int>)
    requires value >= 0 && majorTick != 0
    ensures MakeTick(value, majorTick, labelTick, labelUnit).isMajor <==> value % Abs(majorTick) == 0
  {
  }

  /** Labels fall at the multiples of the label spacing (the major spacing by default). */
  lemma LabelledAtMultiples(value: int, majorTick: int, labelTick: Option<int>, labelUnit: Option<int>)
    requires value >= 0 && labelTick.GetOr(majorTick) != 0
    ensures MakeTick(value, majorTick, labelTick, labelUnit).caption.Some? <==> value % Abs(labelTick.GetOr(majorTick)) == 0
    ensures MakeTick(value, majorTick, labelTick, labelUnit).caption.Some? && labelUnit.GetOr(majorTick) != 0 ==>
      MakeTick(value, majorTick, labelTick, labelUnit).caption.value.q * labelUnit.GetOr(majorTick) as real == value as real
  {
  }

  /** Below zero the remainder is never positive, so every tick counts as major and is labelled. */
  lemma NegativeTicksMajor(value: int, majorTick: int, labelTick: Option<int>, labelUnit: Option<int>)
    requires value < 0 && majorTick != 0 && labelTick.GetOr(majorTick) != 0
    ensures MakeTick(value, majorTick, labelTick, labelUnit).isMajor
    ensures MakeTick(value, majorTick, labelTick, labelUnit).caption.Some?
  {
  }

  /** The first value the loop visits: `lower` rounded toward zero to a multiple of `minorTick`. */
  function FirstTick(lower: int, minorTick: int): (first: int)
    requires minorTick > 0
    ensures first == QuotientTowardZero(lower, minorTick) * minorTick
    ensures Abs(lower - first) < minorTick
    ensures lower >= 0 ==> first <= lower
    ensures lower < 0 ==> lower <= first
  {
    lower - TruncatingRemainder(lower, minorTick)
  }

  /** The values visited from `value` on: one every `minorTick` while below `upper`. */
  function TickValues(value: int, upper: int, minorTick: int): seq<int>
    requires minorTick > 0
    decreases upper - value
  {
    if value < upper then [value] + TickValues(value + minorTick, upper, minorTick) else []
  }

  /** ceil(span / step) for a positive span and step. */
  function CeilDiv(span: int, step: int): (n: nat)
    requires span > 0 && step > 0
  {
    (span + step - 1) / step
  }

  /** The only n with (n - 1) * step < span <= n * step is ceil(span / step). */
  lemma CeilDivUnique(span: int, step: int, n: nat)
    requires span > 0 && step > 0
    requires (n - 1) * step < span <= n * step
    ensures CeilDiv(span, step) == n
  {
    var x := span + step - 1;
    var q := x / step;
    if q < n {
      MultiplyMonotone(q + 1, n, step);
      assert false;
    }
    if q > n {
      MultiplyMonotone(n + 1, q, step);
      assert false;
    }
  }

  lemma MultiplyMonotone(a: int, b: int, c: int)
    requires a <= b && c >= 0
    ensures a * c <= b * c
  {
  }

  /** n steps of `minorTick` from `value` cover the span to `upper`, and n - 1 do not. */
  lemma {:induction false} TickValuesSpan(value: int, upper: int, minorTick: int)
    requires minorTick > 0 && value < upper
    ensures var n := |TickValues(value, upper, minorTick)|;
      (n - 1) * minorTick < upper - value <= n * minorTick
    decreases upper - value
  {
    var rest := TickValues(value + minorTick, upper, minorTick);
    if value + minorTick < upper {
      TickValuesSpan(value + minorTick, upper, minorTick);
      var n := |rest|;
      assert (n + 1 - 1) * minorTick == (n - 1) * minorTick + minorTick;
      assert (n + 1) * minorTick == n * minorTick + minorTick;
    }
  }

  /** The loop draws ceil((upper - value) / minorTick) ticks, and none when it starts at `upper` or above. */
  lemma TickCount(value: int, upper: int, minorTick: int)
    requires minorTick > 0
    ensures |TickValues(value, upper, minorTick)| ==
      if value < upper then CeilDiv(upper - value, minorTick) else 0
  {
    if value < upper {
      TickValuesSpan(value, upper, minorTick);
      CeilDivUnique(upper - value, minorTick, |TickValues(value, upper, minorTick)|);
    }
  }

  /** The i-th value is `value + i * minorTick`, below `upper`; consecutive values are one step apart. */
  lemma {:induction false} TickValueAt(value: int, upper: int, minorTick: int, i: nat)
    requires minorTick > 0 && i < |TickValues(value, upper, minorTick)|
    ensures TickValues(value, upper, minorTick)[i] == value + i * minorTick
    ensures TickValues(value, upper, minorTick)[i] < upper
    ensures i > 0 ==> TickValues(value, upper, minorTick)[i] == TickValues(value, upper, minorTick)[i - 1] + minorTick
    decreases upper - value
  {
    if i > 0 {
      TickValueAt(value + minorTick, upper, minorTick, i - 1);
      assert (i - 1) * minorTick + minorTick == i * minorTick;
      if i > 1 {
        TickValueAt(value + minorTick, upper, minorTick, i - 2);
      }
    }
  }

  /**
   * The drawing loop: starting at `FirstTick`, classifies one tick every
   * `minorTick` while below `upper`. With `minorTick` zero the start is NaN and
   * no tick is drawn.
   */
  method Ticks(lower: int, upper: int, majorTick: int, minorTick: int, labelTick: Option<int>, labelUnit: Option<int>)
    returns (ticks: seq<Tick>)
    requires lower <= upper
    requires minorTick >= 0
    ensures minorTick == 0 ==> ticks == []
    ensures minorTick > 0 ==>
      var values := TickValues(FirstTick(lower, minorTick), upper, minorTick);
      |ticks| == |values| &&
      forall i :: 0 <= i < |ticks| ==> ticks[i] == MakeTick(values[i], majorTick, labelTick, labelUnit)
  {
    ticks := [];
    if minorTick == 0 {
      return;
    }
    var first := FirstTick(lower, minorTick);
    var value := first;
    ghost var visited: seq<int> := [];
    while value < upper
      invariant visited + TickValues(value, upper, minorTick) == TickValues(first, upper, minorTick)
      invariant |ticks| == |visited|
      invariant forall i :: 0 <= i < |ticks| ==> ticks[i] == MakeTick(visited[i], majorTick, labelTick, labelUnit)
      decreases upper - value
    {
      ticks := ticks + [MakeTick(value, majorTick, labelTick, labelUnit)];
      visited := visited + [value];
      value := value + minorTick;
    }
  }

  /** The height a tick reaches: the canvas above the label row for a major tick, half that for a minor one. */
  function TickHeight(t: Tick, canvasHeight: real, labelHeight: real): real {
    var majorHeight := canvasHeight - labelHeight;
    if t.isMajor then majorHeight else majorHeight / 2.0
  }

  /**
   * A tick reaches the full height above the labels exactly when the
   * remainder of its value by `majorTick` is below one (for non-negative values:
   * a multiple of `majorTick`), and half of it otherwise.
   */
  lemma TickHeightByValue(value: int, majorTick: int, labelTick: Option<int>, labelUnit: Option<int>,
                          canvasHeight: real, labelHeight: real)
    requires canvasHeight > labelHeight
    ensures var h := TickHeight(MakeTick(value, majorTick, labelTick, labelUnit), canvasHeight, labelHeight);
      (h == canvasHeight - labelHeight <==> RemainderBelowOne(value, majorTick)) &&
      (!RemainderBelowOne(value, majorTick) ==> 2.0 * h == canvasHeight - labelHeight) &&
      (value >= 0 && majorTick != 0 ==> (h == canvasHeight - labelHeight <==> value % Abs(majorTick) == 0))
  {
    if value >= 0 && majorTick != 0 {
      MajorAtMultiples(value, majorTick, labelTick, labelUnit);
    }
  }

  /** On a canvas taller than the label row, a major tick is strictly taller than a minor one. */
  lemma MajorTallerThanMinor(major: Tick, minor: Tick, canvasHeight: real, labelHeight: real)
    requires canvasHeight > labelHeight && major.isMajor && !minor.isMajor
    ensures TickHeight(minor, canvasHeight, labelHeight) > 0.0
    ensures TickHeight(major, canvasHeight, labelHeight) > TickHeight(minor, canvasHeight, labelHeight)
  {
  }
}
