/** Values shared by the three strategies: optional values, bars, order requests,
    and the host's volume normalisation reduced to rounding onto a volume step. */
module Common {

  /** `None` stands for the host's NaN, a null reference, or `DateTime.MinValue`. */
  datatype Option<T> = None | Some(value: T)

  datatype TradeType = Buy | Sell

  /** One closed price bar; `openTime` is a timestamp in whole seconds. */
  datatype Bar = Bar(openTime: int, open: real, high: real, low: real, close: real)

  /** A market order request handed to the host: volume in units, distances in pips. */
  datatype Order = Order(direction: TradeType, volume: real, stopLossPips: real, takeProfitPips: real)

  /** `k` volume steps. */
  function StepMultiple(k: int, step: real): real
  {
    k as real * step
  }

  /** `x` is a whole number of steps: a volume the host can trade. */
  ghost predicate OnStep(x: real, step: real)
  {
    exists k: int :: x == StepMultiple(k, step)
  }

  /** Volume normalisation with rounding mode Down: the largest multiple of `step` that is not above `units`. */
  function FloorToStep(units: real, step: real): (r: real)
    requires step > 0.0
    ensures r <= units < r + step
    ensures OnStep(r, step)
  {
    var k := (units / step).Floor;
    assert k as real <= units / step < k as real + 1.0;
    MulBelow(k as real, units / step, step);
    MulBelow(units / step, k as real + 1.0, step);
    assert (units / step) * step == units;
    assert (k as real + 1.0) * step == k as real * step + step;
    assert units < k as real * step + step;
    assert k as real * step <= units;
    assert k as real * step == StepMultiple(k, step);
    k as real * step
  }

  /** Volume normalisation with rounding mode ToNearest: a multiple of `step` at most half a step away. */
  function NearestStep(units: real, step: real): (r: real)
    requires step > 0.0
    ensures units - step / 2.0 < r <= units + step / 2.0
    ensures OnStep(r, step)
  {
    var shifted := units + step / 2.0;
    var d := FloorToStep(shifted, step);
    assert d <= shifted < d + step;
    d
  }

  lemma MulBelow(a: real, b: real, c: real)
    requires a <= b && c > 0.0
    ensures a * c <= b * c
    ensures a < b ==> a * c < b * c
  {
  }

  /** Rounding down onto the step never reverses the order of two amounts. */
  lemma FloorToStepMonotone(a: real, b: real, step: real)
    requires step > 0.0 && a <= b
    ensures FloorToStep(a, step) <= FloorToStep(b, step)
  {
    MulBelow(a, b, 1.0 / step);
    assert a / step <= b / step;
    assert (a / step).Floor <= (b / step).Floor;
    MulBelow((a / step).Floor as real, (b / step).Floor as real, step);
  }

  /** A price distance in pips. */
  function ToPips(distance: real, pipSize: real): real
    requires pipSize > 0.0
  {
    distance / pipSize
  }

  /** A distance in pips as a price distance. */
  function FromPips(pips: real, pipSize: real): real
  {
    pips * pipSize
  }

  /** Converting a distance to pips and back gives the distance; it is a positive number of pips exactly
      when it is positive. */
  lemma PipsRoundTrip(distance: real, pipSize: real)
    requires pipSize > 0.0
    ensures FromPips(ToPips(distance, pipSize), pipSize) == distance
    ensures ToPips(distance, pipSize) > 0.0 <==> distance > 0.0
  {
  }
}
