/** The embedded ZigZag indicator of MarketStructureBot.cs: a per-bar filter that keeps candidate swing
    lows and highs in two buffers (0.0 = no value), retracts weaker nearby candidates, and writes confirmed
    turning points into `Result` through a three-state machine (0 = no leg yet, 1 = last point was a low,
    -1 = last point was a high). */
module ZigZagIndicator {
  import opened Common

  datatype Mode = HighLow | OpenClose

  /** The series the low side reads: lows in HighLow mode, opens in OpenClose mode. */
  function LowSeries(bars: seq<Bar>, mode: Mode): (r: seq<real>)
  {
    seq(|bars|, i requires 0 <= i < |bars| => if mode == HighLow then bars[i].low else bars[i].open)
  }

  /** The series the high side reads: highs in HighLow mode, opens in OpenClose mode. */
  function HighSeries(bars: seq<Bar>, mode: Mode): (r: seq<real>)
  {
    seq(|bars|, i requires 0 <= i < |bars| => if mode == HighLow then bars[i].high else bars[i].open)
  }

  /** The least value of xs[lo..hi]. */
  function WindowMin(xs: seq<real>, lo: int, hi: int): (r: real)
    requires 0 <= lo < hi <= |xs|
    ensures forall j :: lo <= j < hi ==> r <= xs[j]
    ensures exists j :: lo <= j < hi && r == xs[j]
    decreases hi - lo
  {
    if hi - lo == 1 then xs[lo]
    else
      var m := WindowMin(xs, lo + 1, hi);
      if xs[lo] <= m then xs[lo] else m
  }

  /** The greatest value of xs[lo..hi]. */
  function WindowMax(xs: seq<real>, lo: int, hi: int): (r: real)
    requires 0 <= lo < hi <= |xs|
    ensures forall j :: lo <= j < hi ==> xs[j] <= r
    ensures exists j :: lo <= j < hi && r == xs[j]
    decreases hi - lo
  {
    if hi - lo == 1 then xs[lo]
    else
      var m := WindowMax(xs, lo + 1, hi);
      if xs[lo] >= m then xs[lo] else m
  }

  /** The stored candidate `v` is weaker than the new candidate `cand`: a higher low or a lower high. */
  predicate Weaker(v: real, cand: real, isLow: bool)
  {
    v != 0.0 && (if isLow then v > cand else v < cand)
  }

  /** The backstep: among the `steps` entries just before `index`, weaker candidates are cleared to 0. */
  function Retract(buf: seq<real>, index: int, steps: int, cand: real, isLow: bool): seq<real>
  {
    seq(|buf|, j requires 0 <= j < |buf| =>
      if index - steps <= j < index && Weaker(buf[j], cand, isLow) then 0.0 else buf[j])
  }

  /** One side of the filter after a bar: the new reference extreme, the accepted candidate (0 = none) and the buffer. */
  datatype Side = Side(last: real, current: real, buf: seq<real>)

  /** One side of the filter: the trailing-depth extreme is a candidate only when it differs from the last
      reference and the bar's own price is within `dev` of it; an accepted candidate retracts weaker
      entries within the backstep, and the buffer at `index` records it only when the bar's price equals it. */
  function SideStep(series: seq<real>, index: int, depth: nat, dev: real, backStep: nat,
                    last: real, buf: seq<real>, isLow: bool): Side
    requires 1 <= depth <= index < |series| && index < |buf|
  {
    var cur := if isLow then WindowMin(series, index - depth + 1, index + 1)
               else WindowMax(series, index - depth + 1, index + 1);
    var far := if isLow then series[index] - cur > dev else cur - series[index] > dev;
    var s := if cur == last then Side(last, 0.0, buf)
             else if far then Side(cur, 0.0, buf)
             else Side(cur, cur, Retract(buf, index, backStep, cur, isLow));
    s.(buf := s.buf[index := if series[index] == s.current && s.current != 0.0 then s.current else 0.0])
  }

  /** The filter's state between bars; `result[i] == None` is the series' NaN. */
  datatype State = State(lastLow: real, lastHigh: real, low: real, high: real,
                         lastHighIndex: int, lastLowIndex: int, trend: int,
                         highs: seq<real>, lows: seq<real>, result: seq<Option<real>>)

  predicate Shaped(s: State)
  {
    |s.highs| == |s.lows| == |s.result|
  }

  /** The state machine on the candidates at `index` (the result at `index` was already reset to None). */
  function TrendStep(s: State, index: int): State
    requires Shaped(s) && 0 <= index < |s.result|
  {
    var hz := s.highs[index];
    var lz := s.lows[index];
    if s.trend == 0 then
      if hz > 0.0 then s.(high := hz, lastHighIndex := index, trend := -1, result := s.result[index := Some(hz)])
      else if lz > 0.0 then s.(low := lz, lastLowIndex := index, trend := 1, result := s.result[index := Some(lz)])
      else s
    else if s.trend == 1 then
      if lz > 0.0 && lz < s.low then
        var r := if s.lastLowIndex != index && 0 <= s.lastLowIndex < |s.result| then s.result[s.lastLowIndex := None]
                 else s.result;
        s.(low := lz, lastLowIndex := index, result := r[index := Some(lz)])
      else if hz > 0.0 then
        if s.low == 0.0 || hz > s.low then
          s.(high := hz, lastHighIndex := index, result := s.result[index := Some(hz)], trend := -1)
        else s.(highs := s.highs[index := 0.0])
      else s
    else if s.trend == -1 then
      if hz > 0.0 && hz > s.high then
        var r := if s.lastHighIndex != index && 0 <= s.lastHighIndex < |s.result| then s.result[s.lastHighIndex := None]
                 else s.result;
        s.(high := hz, lastHighIndex := index, result := r[index := Some(hz)])
      else if lz > 0.0 then
        if s.high == 0.0 || lz < s.high then
          s.(low := lz, lastLowIndex := index, result := s.result[index := Some(lz)], trend := 1)
        else s.(lows := s.lows[index := 0.0])
      else s
    else s
  }

  /** The filter's work on bar `index` (PerformIndicatorHighLow / PerformIndicatorOpenClose, which differ
      only in the series they read). */
  function Perform(s: State, lowSeries: seq<real>, highSeries: seq<real>, index: int,
                   depth: nat, dev: real, backStep: nat): (r: State)
    requires Shaped(s) && 0 <= index < |s.result| && index < |lowSeries| && index < |highSeries| && depth >= 1
    ensures Shaped(r)
  {
    if index < depth then
      s.(result := s.result[index := None], highs := s.highs[index := 0.0], lows := s.lows[index := 0.0])
    else
      var l := SideStep(lowSeries, index, depth, dev, backStep, s.lastLow, s.lows, true);
      var h := SideStep(highSeries, index, depth, dev, backStep, s.lastHigh, s.highs, false);
      TrendStep(s.(lastLow := l.last, lows := l.buf, lastHigh := h.last, highs := h.buf,
                   result := s.result[index := None]), index)
  }

  lemma PerformInWarmUp(s: State, lowSeries: seq<real>, highSeries: seq<real>, index: int,
                        depth: nat, dev: real, backStep: nat)
    requires Shaped(s) && 0 <= index < |s.result| && index < |lowSeries| && index < |highSeries| && 1 <= depth
    requires index < depth
    ensures Perform(s, lowSeries, highSeries, index, depth, dev, backStep) ==
            s.(result := s.result[index := None], highs := s.highs[index := 0.0], lows := s.lows[index := 0.0])
  {
  }

  lemma PerformAfterWarmUp(s: State, lowSeries: seq<real>, highSeries: seq<real>, index: int,
                           depth: nat, dev: real, backStep: nat)
    requires Shaped(s) && 0 <= index < |s.result| && index < |lowSeries| && index < |highSeries| && 1 <= depth <= index
    ensures var l := SideStep(lowSeries, index, depth, dev, backStep, s.lastLow, s.lows, true);
            var h := SideStep(highSeries, index, depth, dev, backStep, s.lastHigh, s.highs, false);
            Perform(s, lowSeries, highSeries, index, depth, dev, backStep) ==
            TrendStep(s.(lastLow := l.last, lows := l.buf, lastHigh := h.last, highs := h.buf,
                         result := s.result[index := None]), index)
  {
  }

  // ---------------------------------------------------------------------------
  // Properties of the filter
  // ---------------------------------------------------------------------------

  /** The backstep changes only the `steps` entries before `index`, only to 0, and only where the stored
      candidate is weaker than the new one. */
  lemma RetractFrame(buf: seq<real>, index: int, steps: int, cand: real, isLow: bool)
    ensures |Retract(buf, index, steps, cand, isLow)| == |buf|
    ensures forall j :: 0 <= j < |buf| ==>
              (Retract(buf, index, steps, cand, isLow)[j] != buf[j] <==>
               index - steps <= j < index && Weaker(buf[j], cand, isLow)) &&
              (Retract(buf, index, steps, cand, isLow)[j] != buf[j] ==> Retract(buf, index, steps, cand, isLow)[j] == 0.0)
  {
  }

  /** A side's buffer at `index` is non-zero exactly when the trailing extreme is new, the bar's price is
      within the deviation of it, the price equals it and it is not 0; it then holds that price. Every other
      entry changes only within the backstep window before `index`, and only to 0 for a weaker candidate. */
  lemma SideStepCandidate(series: seq<real>, index: int, depth: nat, dev: real, backStep: nat,
                          last: real, buf: seq<real>, isLow: bool)
    requires 1 <= depth <= index < |series| && index < |buf|
    ensures var cur := if isLow then WindowMin(series, index - depth + 1, index + 1)
                       else WindowMax(series, index - depth + 1, index + 1);
            var far := if isLow then series[index] - cur > dev else cur - series[index] > dev;
            var r := SideStep(series, index, depth, dev, backStep, last, buf, isLow);
            |r.buf| == |buf| &&
            (r.buf[index] != 0.0 <==> cur != last && !far && series[index] == cur && cur != 0.0) &&
            (r.buf[index] != 0.0 ==> r.buf[index] == series[index]) &&
            r.last == (if cur == last then last else cur) &&
            forall j :: 0 <= j < |buf| && j != index && r.buf[j] != buf[j] ==>
              index - backStep <= j < index && r.buf[j] == 0.0 && Weaker(buf[j], cur, isLow)
  {
    RetractFrame(buf, index, backStep, if isLow then WindowMin(series, index - depth + 1, index + 1)
                                       else WindowMax(series, index - depth + 1, index + 1), isLow);
  }

  /** During warm-up (index below depth) the bar gets no result and no candidates, and nothing else changes. */
  lemma WarmUp(s: State, lowSeries: seq<real>, highSeries: seq<real>, index: int, depth: nat, dev: real, backStep: nat)
    requires Shaped(s) && 0 <= index < |s.result| && index < |lowSeries| && index < |highSeries| && depth >= 1
    requires index < depth
    ensures var r := Perform(s, lowSeries, highSeries, index, depth, dev, backStep);
            r.result[index].None? && r.highs[index] == 0.0 && r.lows[index] == 0.0 &&
            r == s.(result := r.result, highs := r.highs, lows := r.lows) &&
            forall j :: 0 <= j < |s.result| && j != index ==>
              r.result[j] == s.result[j] && r.highs[j] == s.highs[j] && r.lows[j] == s.lows[j]
  {
  }

  /** The state stays in {0, 1, -1} and never returns to 0 once a leg has started. */
  lemma TrendRange(s: State, lowSeries: seq<real>, highSeries: seq<real>, index: int, depth: nat, dev: real, backStep: nat)
    requires Shaped(s) && 0 <= index < |s.result| && index < |lowSeries| && index < |highSeries| && depth >= 1
    requires s.trend in {0, 1, -1}
    ensures var r := Perform(s, lowSeries, highSeries, index, depth, dev, backStep);
            r.trend in {0, 1, -1} && (s.trend != 0 ==> r.trend != 0)
  {
  }

  /** In state 1 (last point a low): a lower low moves the output to `index`, clears the previous low's
      output and stays in state 1; otherwise a high is taken only above the last low (or with no last low),
      switching to state -1, and a weaker high is erased from its buffer with the state unchanged. */
  lemma AfterLow(s: State, index: int)
    requires Shaped(s) && 0 <= index < |s.result| && s.trend == 1
    ensures var r := TrendStep(s, index);
            var hz := s.highs[index];
            var lz := s.lows[index];
            (lz > 0.0 && lz < s.low ==>
               r.trend == 1 && r.low == lz && r.lastLowIndex == index && r.result[index] == Some(lz) &&
               (s.lastLowIndex != index && 0 <= s.lastLowIndex < |s.result| ==> r.result[s.lastLowIndex].None?)) &&
            (!(lz > 0.0 && lz < s.low) && hz > 0.0 && (s.low == 0.0 || hz > s.low) ==>
               r.trend == -1 && r.high == hz && r.lastHighIndex == index && r.result[index] == Some(hz)) &&
            (!(lz > 0.0 && lz < s.low) && hz > 0.0 && !(s.low == 0.0 || hz > s.low) ==>
               r == s.(highs := s.highs[index := 0.0]))
  {
  }

  /** In state -1 (last point a high), the mirror of AfterLow. */
  lemma AfterHigh(s: State, index: int)
    requires Shaped(s) && 0 <= index < |s.result| && s.trend == -1
    ensures var r := TrendStep(s, index);
            var hz := s.highs[index];
            var lz := s.lows[index];
            (hz > 0.0 && hz > s.high ==>
               r.trend == -1 && r.high == hz && r.lastHighIndex == index && r.result[index] == Some(hz) &&
               (s.lastHighIndex != index && 0 <= s.lastHighIndex < |s.result| ==> r.result[s.lastHighIndex].None?)) &&
            (!(hz > 0.0 && hz > s.high) && lz > 0.0 && (s.high == 0.0 || lz < s.high) ==>
               r.trend == 1 && r.low == lz && r.lastLowIndex == index && r.result[index] == Some(lz)) &&
            (!(hz > 0.0 && hz > s.high) && lz > 0.0 && !(s.high == 0.0 || lz < s.high) ==>
               r == s.(lows := s.lows[index := 0.0]))
  {
  }

  /** The state machine writes the output only at `index`, with a positive candidate of that bar, and
      elsewhere only clears the previous leg end. */
  lemma TrendStepOutput(s: State, index: int)
    requires Shaped(s) && 0 <= index < |s.result|
    ensures var r := TrendStep(s, index);
            |r.result| == |s.result| &&
            (r.result[index] == s.result[index] ||
             (s.highs[index] > 0.0 && r.result[index] == Some(s.highs[index])) ||
             (s.lows[index] > 0.0 && r.result[index] == Some(s.lows[index]))) &&
            forall j :: 0 <= j < |s.result| && j != index && r.result[j] != s.result[j] ==>
              (j == s.lastLowIndex || j == s.lastHighIndex) && r.result[j].None?
  {
  }

  /** The output changes only at `index`, and elsewhere only at the previous leg end, which is cleared. */
  lemma ResultFrame(s: State, lowSeries: seq<real>, highSeries: seq<real>, index: int, depth: nat, dev: real, backStep: nat)
    requires Shaped(s) && 0 <= index < |s.result| && index < |lowSeries| && index < |highSeries| && depth >= 1
    ensures var r := Perform(s, lowSeries, highSeries, index, depth, dev, backStep);
            forall j :: 0 <= j < |s.result| && j != index && r.result[j] != s.result[j] ==>
              (j == s.lastLowIndex || j == s.lastHighIndex) && r.result[j].None?
  {
    if index >= depth {
      var l := SideStep(lowSeries, index, depth, dev, backStep, s.lastLow, s.lows, true);
      var h := SideStep(highSeries, index, depth, dev, backStep, s.lastHigh, s.highs, false);
      SideStepCandidate(lowSeries, index, depth, dev, backStep, s.lastLow, s.lows, true);
      SideStepCandidate(highSeries, index, depth, dev, backStep, s.lastHigh, s.highs, false);
      TrendStepOutput(s.(lastLow := l.last, lows := l.buf, lastHigh := h.last, highs := h.buf,
                         result := s.result[index := None]), index);
    }
  }

  /** A value written at `index` is positive and is the bar's own low-side or high-side price. */
  lemma ResultValue(s: State, lowSeries: seq<real>, highSeries: seq<real>, index: int, depth: nat, dev: real, backStep: nat)
    requires Shaped(s) && 0 <= index < |s.result| && index < |lowSeries| && index < |highSeries| && depth >= 1
    ensures var r := Perform(s, lowSeries, highSeries, index, depth, dev, backStep);
            r.result[index].Some? ==>
              r.result[index].value > 0.0 &&
              (r.result[index].value == lowSeries[index] || r.result[index].value == highSeries[index])
  {
    if index >= depth {
      var l := SideStep(lowSeries, index, depth, dev, backStep, s.lastLow, s.lows, true);
      var h := SideStep(highSeries, index, depth, dev, backStep, s.lastHigh, s.highs, false);
      SideStepCandidate(lowSeries, index, depth, dev, backStep, s.lastLow, s.lows, true);
      SideStepCandidate(highSeries, index, depth, dev, backStep, s.lastHigh, s.highs, false);
      TrendStepOutput(s.(lastLow := l.last, lows := l.buf, lastHigh := h.last, highs := h.buf,
                         result := s.result[index := None]), index);
    }
  }

  // ---------------------------------------------------------------------------
  // The indicator object
  // ---------------------------------------------------------------------------

  /** The deviation, given in ticks, as a price distance. */
  function DeviationDistance(deviation: int, point: real): real
  {
    deviation as real * point
  }

  class ZigZag {
    const mode: Mode
    const depth: nat
    const deviation: int
    const backStep: nat
    var point: real
    var lastLow: real
    var lastHigh: real
    var low: real
    var high: real
    var lastHighIndex: int
    var lastLowIndex: int
    var trend: int
    var highZigZags: seq<real>
    var lowZigZags: seq<real>
    var result: seq<Option<real>>

    ghost predicate Valid()
      reads this
    {
      depth >= 1 && |highZigZags| == |lowZigZags| == |result|
    }

    /** The filter state the pure model works on. */
    ghost function Snap(): (s: State)
      reads this
      ensures Valid() ==> Shaped(s)
    {
      State(lastLow, lastHigh, low, high, lastHighIndex, lastLowIndex, trend, highZigZags, lowZigZags, result)
    }

    /** A fresh indicator over `capacity` bars; the data series start empty. */
    constructor (mode: Mode, depth: nat, deviation: int, backStep: nat, tickSize: real, capacity: nat)
      requires depth >= 1
      ensures Valid()
      ensures this.mode == mode && this.depth == depth && this.deviation == deviation && this.backStep == backStep
      ensures point == tickSize && |result| == capacity
      ensures Snap() == State(0.0, 0.0, 0.0, 0.0, 0, 0, 0, seq(capacity, _ => 0.0), seq(capacity, _ => 0.0),
                              seq(capacity, _ => None))
    {
      this.mode := mode;
      this.depth := depth;
      this.deviation := deviation;
      this.backStep := backStep;
      point := tickSize;
      lastLow, lastHigh, low, high := 0.0, 0.0, 0.0, 0.0;
      lastHighIndex, lastLowIndex, trend := 0, 0, 0;
      highZigZags := seq(capacity, _ => 0.0);
      lowZigZags := seq(capacity, _ => 0.0);
      result := seq(capacity, _ => None);
    }

    /** Bar `index`: re-reads the tick size while it is 0; with a zero tick size only `Result[index]` is
        reset, otherwise the filter runs on the mode's series. */
    method Calculate(bars: seq<Bar>, index: int, tickSize: real)
      requires Valid() && 0 <= index < |bars| && index < |result|
      modifies this
      ensures Valid()
      ensures point == if old(point) == 0.0 then tickSize else old(point)
      ensures point == 0.0 ==> Snap() == old(Snap()).(result := old(result)[index := None])
      ensures point != 0.0 ==> Snap() == Perform(old(Snap()), LowSeries(bars, mode), HighSeries(bars, mode), index,
                                                 depth, DeviationDistance(deviation, point), backStep)
    {
      if point == 0.0 {
        point := tickSize;
      }
      if point == 0.0 {
        result := result[index := None];
      } else {
        PerformIndicator(LowSeries(bars, mode), HighSeries(bars, mode), index, DeviationDistance(deviation, point));
      }
    }

    /** The shared body of PerformIndicatorHighLow and PerformIndicatorOpenClose; `dev` is the deviation
        as a price distance. */
    method PerformIndicator(lowSeries: seq<real>, highSeries: seq<real>, index: int, dev: real)
      requires Valid() && 0 <= index < |result| && index < |lowSeries| && index < |highSeries|
      modifies this`lastLow, this`lastHigh, this`low, this`high, this`lastHighIndex, this`lastLowIndex, this`trend,
               this`highZigZags, this`lowZigZags, this`result
      ensures Valid()
      ensures Snap() == Perform(old(Snap()), lowSeries, highSeries, index, depth, dev, backStep)
    {
      if index < depth {
        result := result[index := None];
        highZigZags := highZigZags[index := 0.0];
        lowZigZags := lowZigZags[index := 0.0];
        return;
      }
      ghost var s0 := Snap();
      LowSide(lowSeries, index, dev);
      HighSide(highSeries, index, dev);
      result := result[index := None];
      PerformAfterWarmUp(s0, lowSeries, highSeries, index, depth, dev, backStep);
      TrendUpdate(index);
    }

    /** The low half of the filter. */
    method LowSide(series: seq<real>, index: int, dev: real)
      requires Valid() && depth <= index < |series| && index < |lowZigZags|
      modifies this`lastLow, this`lowZigZags
      ensures Valid()
      ensures var sd := SideStep(series, index, depth, dev, backStep, old(lastLow), old(lowZigZags), true);
              lastLow == sd.last && lowZigZags == sd.buf
    {
      var currentLow := WindowMin(series, index - depth + 1, index + 1);
      if currentLow == lastLow {
        currentLow := 0.0;
      } else {
        lastLow := currentLow;
        if series[index] - currentLow > dev {
          currentLow := 0.0;
        } else {
          lowZigZags := RetractBuffer(lowZigZags, index, backStep, currentLow, true);
        }
      }
      if series[index] == currentLow && currentLow != 0.0 {
        lowZigZags := lowZigZags[index := currentLow];
      } else {
        lowZigZags := lowZigZags[index := 0.0];
      }
    }

    /** The high half of the filter. */
    method HighSide(series: seq<real>, index: int, dev: real)
      requires Valid() && depth <= index < |series| && index < |highZigZags|
      modifies this`lastHigh, this`highZigZags
      ensures Valid()
      ensures var sd := SideStep(series, index, depth, dev, backStep, old(lastHigh), old(highZigZags), false);
              lastHigh == sd.last && highZigZags == sd.buf
    {
      var currentHigh := WindowMax(series, index - depth + 1, index + 1);
      if currentHigh == lastHigh {
        currentHigh := 0.0;
      } else {
        lastHigh := currentHigh;
        if currentHigh - series[index] > dev {
          currentHigh := 0.0;
        } else {
          highZigZags := RetractBuffer(highZigZags, index, backStep, currentHigh, false);
        }
      }
      if series[index] == currentHigh && currentHigh != 0.0 {
        highZigZags := highZigZags[index := currentHigh];
      } else {
        highZigZags := highZigZags[index := 0.0];
      }
    }

    /** The three-state machine on the candidates at `index`. */
    method TrendUpdate(index: int)
      requires Valid() && 0 <= index < |result|
      modifies this`high, this`low, this`lastHighIndex, this`lastLowIndex, this`trend,
               this`highZigZags, this`lowZigZags, this`result
      ensures Valid()
      ensures Snap() == TrendStep(old(Snap()), index)
    {
      if trend == 0 {
        if highZigZags[index] > 0.0 {
          high := highZigZags[index];
          lastHighIndex := index;
          trend := -1;
          result := result[index := Some(high)];
        } else if lowZigZags[index] > 0.0 {
          low := lowZigZags[index];
          lastLowIndex := index;
          trend := 1;
          result := result[index := Some(low)];
        }
      } else if trend == 1 {
        if lowZigZags[index] > 0.0 && lowZigZags[index] < low {
          if lastLowIndex != index && 0 <= lastLowIndex < |result| {
            result := result[lastLowIndex := None];
          }
          low := lowZigZags[index];
          lastLowIndex := index;
          result := result[index := Some(low)];
        } else if highZigZags[index] > 0.0 {
          if low == 0.0 || highZigZags[index] > low {
            high := highZigZags[index];
            lastHighIndex := index;
            result := result[index := Some(high)];
            trend := -1;
          } else {
            highZigZags := highZigZags[index := 0.0];
          }
        }
      } else if trend == -1 {
        if highZigZags[index] > 0.0 && highZigZags[index] > high {
          if lastHighIndex != index && 0 <= lastHighIndex < |result| {
            result := result[lastHighIndex := None];
          }
          high := highZigZags[index];
          lastHighIndex := index;
          result := result[index := Some(high)];
        } else if lowZigZags[index] > 0.0 {
          if high == 0.0 || lowZigZags[index] < high {
            low := lowZigZags[index];
            lastLowIndex := index;
            result := result[index := Some(low)];
            trend := 1;
          } else {
            lowZigZags := lowZigZags[index := 0.0];
          }
        }
      }
    }
  }

  /** The backstep loop: for i in 1..steps, clears buf[index - i] when it holds a weaker candidate. */
  method RetractBuffer(buf: seq<real>, index: int, steps: nat, cand: real, isLow: bool) returns (r: seq<real>)
    requires index < |buf|
    ensures r == Retract(buf, index, steps, cand, isLow)
  {
    r := buf;
    var i := 1;
    while i <= steps
      invariant 1 <= i <= steps + 1 && |r| == |buf|
      invariant forall j :: 0 <= j < |buf| ==>
                  r[j] == (if index - (i - 1) <= j < index && Weaker(buf[j], cand, isLow) then 0.0 else buf[j])
    {
      if index - i >= 0 && r[index - i] != 0.0 && (if isLow then r[index - i] > cand else r[index - i] < cand) {
        r := r[index - i := 0.0];
      }
      i := i + 1;
    }
  }
}
