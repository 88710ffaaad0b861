/** main.cs: a robot that weighs the trend of four timeframes into a market context and looks on the main
    timeframe for an accumulation range followed by a manipulation candle (the AMD setup), with stop,
    target and volume for the entry. */
module AmdStrategy {
  import opened Common

  // ---------------------------------------------------------------------------
  // Market context
  // ---------------------------------------------------------------------------

  datatype TrendDirection = Bullish | Bearish | Neutral

  function Opposite(t: TrendDirection): TrendDirection
  {
    match t
    case Bullish => Bearish
    case Bearish => Bullish
    case Neutral => Neutral
  }

  /** The previous bar's close and the fast and slow EMA values of one timeframe; `None` is NaN. */
  datatype Reading = Reading(price: Option<real>, fast: Option<real>, slow: Option<real>)

  function Negate(v: Option<real>): Option<real>
  {
    if v.Some? then Some(-v.value) else None
  }

  /** The reading of the price series turned upside down. */
  function Mirror(r: Reading): Reading
  {
    Reading(Negate(r.price), Negate(r.fast), Negate(r.slow))
  }

  /** GetTrendOnTimeframe: bullish when price, fast and slow EMA are stacked upwards, bearish when stacked
      downwards, neutral otherwise and whenever a value is missing. */
  function TrendOnTimeframe(r: Reading): (t: TrendDirection)
    ensures r.price.None? || r.fast.None? || r.slow.None? ==> t == Neutral
    ensures t == Bullish <==> r.price.Some? && r.fast.Some? && r.slow.Some? &&
                              r.price.value > r.fast.value > r.slow.value
    ensures t == Bearish <==> r.price.Some? && r.fast.Some? && r.slow.Some? &&
                              r.price.value < r.fast.value < r.slow.value
  {
    if r.price.None? || r.fast.None? || r.slow.None? then Neutral
    else if r.price.value > r.fast.value && r.fast.value > r.slow.value then Bullish
    else if r.price.value < r.fast.value && r.fast.value < r.slow.value then Bearish
    else Neutral
  }

  /** Turning every price upside down turns the trend around. */
  lemma TrendMirror(r: Reading)
    ensures TrendOnTimeframe(Mirror(r)) == Opposite(TrendOnTimeframe(r))
  {
  }

  /** +1 for bullish, -1 for bearish, 0 for neutral. */
  function Sign(t: TrendDirection): (s: int)
    ensures -1 <= s <= 1
    ensures (s > 0 <==> t == Bullish) && (s < 0 <==> t == Bearish)
  {
    match t
    case Bullish => 1
    case Bearish => -1
    case Neutral => 0
  }

  /** The weighted score: H1 counts once, H4 twice, D1 three times and W1 four times. */
  function Score(t1h: TrendDirection, t4h: TrendDirection, t1d: TrendDirection, t1w: TrendDirection): (r: int)
    ensures -10 <= r <= 10
  {
    Sign(t1h) * 1 + Sign(t4h) * 2 + Sign(t1d) * 3 + Sign(t1w) * 4
  }

  lemma ScoreOpposite(t1h: TrendDirection, t4h: TrendDirection, t1d: TrendDirection, t1w: TrendDirection)
    ensures Score(Opposite(t1h), Opposite(t4h), Opposite(t1d), Opposite(t1w)) == -Score(t1h, t4h, t1d, t1w)
  {
    assert forall t :: Sign(Opposite(t)) == -Sign(t);
  }

  /** GetMarketContext: the score thresholds, then the alignment fallbacks of the higher timeframes. The
      fallbacks never decide anything the score has not: the context is bullish exactly at a score of 5 or
      more and bearish exactly at -5 or less. */
  function MarketContext(t1h: TrendDirection, t4h: TrendDirection, t1d: TrendDirection, t1w: TrendDirection)
    : (r: TrendDirection)
    ensures r == Bullish <==> Score(t1h, t4h, t1d, t1w) >= 5
    ensures r == Bearish <==> Score(t1h, t4h, t1d, t1w) <= -5
  {
    var score := Score(t1h, t4h, t1d, t1w);
    if score >= 5 then Bullish
    else if score <= -5 then Bearish
    else if t4h == Bullish && t1d == Bullish && t1w == Bullish then
      Bullish
    else if t4h == Bearish && t1d == Bearish && t1w == Bearish then
      Bearish
    else if t1d == Bullish && t1w == Bullish && t4h != Bearish then
      Bullish
    else if t1d == Bearish && t1w == Bearish && t4h != Bullish then
      Bearish
    else Neutral
  }

  /** Daily and weekly agreeing, with the four-hour trend not against them, already reach the threshold. */
  lemma AlignedScore(t1h: TrendDirection, t4h: TrendDirection, t1d: TrendDirection, t1w: TrendDirection)
    ensures t1d == Bullish && t1w == Bullish && t4h != Bearish ==> Score(t1h, t4h, t1d, t1w) >= 5
    ensures t1d == Bearish && t1w == Bearish && t4h != Bullish ==> Score(t1h, t4h, t1d, t1w) <= -5
  {
  }

  /** Swapping bullish and bearish on every timeframe swaps the context. */
  lemma ContextSymmetric(t1h: TrendDirection, t4h: TrendDirection, t1d: TrendDirection, t1w: TrendDirection)
    ensures MarketContext(Opposite(t1h), Opposite(t4h), Opposite(t1d), Opposite(t1w)) ==
            Opposite(MarketContext(t1h, t4h, t1d, t1w))
  {
    ScoreOpposite(t1h, t4h, t1d, t1w);
  }

  /** The readings of H1, H4, D1 and W1. */
  datatype Readings = Readings(h1: Reading, h4: Reading, d1: Reading, w1: Reading)

  function ContextOf(rs: Readings): TrendDirection
  {
    MarketContext(TrendOnTimeframe(rs.h1), TrendOnTimeframe(rs.h4), TrendOnTimeframe(rs.d1), TrendOnTimeframe(rs.w1))
  }

  // ---------------------------------------------------------------------------
  // Accumulation and manipulation
  // ---------------------------------------------------------------------------

  /** An inclusive range of bar indices. */
  datatype Span = Span(start: int, end: int)

  /** The accumulation window: up to the last closed bar, `lookback` bars long, cut at bar 0. With the
      bar count CheckAmdSetup demands it is never cut, so its half-length check never rejects. */
  function AccumulationSpan(count: int, lookback: nat): (r: Span)
    ensures r.end == count - 2 && r.start >= 0
    ensures count >= lookback + 5 ==> r.end - r.start + 1 == lookback && r.end - r.start + 1 >= lookback / 2
  {
    var end := count - 2;
    Span(if end - lookback + 1 > 0 then end - lookback + 1 else 0, end)
  }

  /** The manipulation scan range: from the bar after the accumulation window to the last closed bar. It
      is always empty, since the window already ends at the last closed bar. */
  function ManipulationSpan(count: int, lookback: nat): (r: Span)
    ensures r.start > r.end
  {
    Span(AccumulationSpan(count, lookback).end + 1, count - 2)
  }

  /** The highest high of the bars `lo..hi`. */
  function WindowHigh(bars: seq<Bar>, lo: int, hi: int): real
    requires 0 <= lo <= hi < |bars|
    decreases hi - lo
  {
    if lo == hi then bars[lo].high
    else
      var rest := WindowHigh(bars, lo, hi - 1);
      if bars[hi].high > rest then bars[hi].high else rest
  }

  /** The lowest low of the bars `lo..hi`. */
  function WindowLow(bars: seq<Bar>, lo: int, hi: int): real
    requires 0 <= lo <= hi < |bars|
    decreases hi - lo
  {
    if lo == hi then bars[lo].low
    else
      var rest := WindowLow(bars, lo, hi - 1);
      if bars[hi].low < rest then bars[hi].low else rest
  }

  /** The window's highest high is the high of one of its bars and no high of the window is above it; the
      lowest low likewise. */
  lemma {:induction false} WindowExtremes(bars: seq<Bar>, lo: int, hi: int)
    requires 0 <= lo <= hi < |bars|
    ensures forall k :: lo <= k <= hi ==> bars[k].high <= WindowHigh(bars, lo, hi)
    ensures exists k :: lo <= k <= hi && bars[k].high == WindowHigh(bars, lo, hi)
    ensures forall k :: lo <= k <= hi ==> bars[k].low >= WindowLow(bars, lo, hi)
    ensures exists k :: lo <= k <= hi && bars[k].low == WindowLow(bars, lo, hi)
    decreases hi - lo
  {
    if lo < hi {
      WindowExtremes(bars, lo, hi - 1);
      var kh :| lo <= kh <= hi - 1 && bars[kh].high == WindowHigh(bars, lo, hi - 1);
      var kl :| lo <= kl <= hi - 1 && bars[kl].low == WindowLow(bars, lo, hi - 1);
      if bars[hi].high > WindowHigh(bars, lo, hi - 1) {
        assert bars[hi].high == WindowHigh(bars, lo, hi);
      } else {
        assert bars[kh].high == WindowHigh(bars, lo, hi);
      }
      if bars[hi].low < WindowLow(bars, lo, hi - 1) {
        assert bars[hi].low == WindowLow(bars, lo, hi);
      } else {
        assert bars[kl].low == WindowLow(bars, lo, hi);
      }
    } else {
      assert bars[lo].high == WindowHigh(bars, lo, hi);
      assert bars[lo].low == WindowLow(bars, lo, hi);
    }
  }

  /** The accumulation loop; the host's MinValue and MaxValue starting sentinels are `None`. */
  method AccumulationExtremes(bars: seq<Bar>, start: int, end: int) returns (high: real, low: real)
    requires 0 <= start <= end < |bars|
    ensures high == WindowHigh(bars, start, end) && low == WindowLow(bars, start, end)
  {
    var tempHigh: Option<real> := None;
    var tempLow: Option<real> := None;
    var k := start;
    while k <= end
      invariant start <= k <= end + 1
      invariant k == start ==> tempHigh.None? && tempLow.None?
      invariant k > start ==> tempHigh == Some(WindowHigh(bars, start, k - 1)) &&
                              tempLow == Some(WindowLow(bars, start, k - 1))
    {
      if tempHigh.None? || bars[k].high > tempHigh.value {
        tempHigh := Some(bars[k].high);
      }
      if tempLow.None? || bars[k].low < tempLow.value {
        tempLow := Some(bars[k].low);
      }
      k := k + 1;
    }
    high, low := tempHigh.value, tempLow.value;
  }

  /** The accumulation range is accepted when it spans more than zero and at most `maxRangePips` pips. */
  predicate RangeAccepted(high: real, low: real, pipSize: real, maxRangePips: real)
    requires pipSize > 0.0
  {
    var rangePips := ToPips(high - low, pipSize);
    rangePips <= maxRangePips && rangePips > 0.0
  }

  /** An accepted range has its high above its low, at most `maxRangePips` pips apart. */
  lemma AcceptedRangeBounds(high: real, low: real, pipSize: real, maxRangePips: real)
    requires pipSize > 0.0
    ensures RangeAccepted(high, low, pipSize, maxRangePips) <==>
            low < high && high - low <= FromPips(maxRangePips, pipSize)
  {
    PipsRoundTrip(high - low, pipSize);
    var rangePips := ToPips(high - low, pipSize);
    if rangePips <= maxRangePips {
      MulBelow(rangePips, maxRangePips, pipSize);
    }
    if high - low <= FromPips(maxRangePips, pipSize) {
      PipsRoundTrip(FromPips(maxRangePips, pipSize), pipSize);
      MulBelow(high - low, FromPips(maxRangePips, pipSize), 1.0 / pipSize);
      assert FromPips(maxRangePips, pipSize) / pipSize == maxRangePips;
    }
  }

  /** The share of the candle's range taken by the rejection wick, in percent. */
  function RejectionPercent(wick: real, range: real): real
    requires range != 0.0
  {
    wick / range * 100.0
  }

  /** A bullish manipulation candle: it sweeps at least `minBreakout` below the accumulation low and closes
      back up off its low with a wick of at least `rejectionPercent` of its range. */
  predicate BullishManipulation(b: Bar, accLow: real, minBreakout: real, rejectionPercent: real)
  {
    b.low < accLow && accLow - b.low >= minBreakout && b.high - b.low != 0.0 &&
    b.close > b.low && RejectionPercent(b.close - b.low, b.high - b.low) >= rejectionPercent
  }

  /** The mirror above the accumulation high. */
  predicate BearishManipulation(b: Bar, accHigh: real, minBreakout: real, rejectionPercent: real)
  {
    b.high > accHigh && b.high - accHigh >= minBreakout && b.high - b.low != 0.0 &&
    b.close < b.high && RejectionPercent(b.high - b.close, b.high - b.low) >= rejectionPercent
  }

  /** The bar turned upside down. */
  function MirrorBar(b: Bar): Bar
  {
    Bar(b.openTime, -b.open, -b.low, -b.high, -b.close)
  }

  /** The bearish test is the bullish test on the mirrored bar. */
  lemma ManipulationMirror(b: Bar, accHigh: real, minBreakout: real, rejectionPercent: real)
    ensures BearishManipulation(b, accHigh, minBreakout, rejectionPercent) <==>
            BullishManipulation(MirrorBar(b), -accHigh, minBreakout, rejectionPercent)
  {
    var m := MirrorBar(b);
    assert m.close - m.low == b.high - b.close;
    assert m.high - m.low == b.high - b.low;
  }

  predicate IsManipulation(b: Bar, context: TrendDirection, accHigh: real, accLow: real, minBreakout: real,
                           rejectionPercent: real)
  {
    match context
    case Bullish => BullishManipulation(b, accLow, minBreakout, rejectionPercent)
    case Bearish => BearishManipulation(b, accHigh, minBreakout, rejectionPercent)
    case Neutral => false
  }

  /** The manipulation loop over `span`: the first bar that passes the test of the context, if any.
      The source also stores that bar's high or low and open time as the manipulation extreme; since
      the span CheckAmdSetup gives it is always empty, that write never happens and only the index is
      returned here. */
  method FindManipulation(bars: seq<Bar>, span: Span, context: TrendDirection, accHigh: real, accLow: real,
                          minBreakout: real, rejectionPercent: real) returns (found: Option<int>)
    requires 0 <= span.start && span.end < |bars|
    ensures found.Some? ==>
              span.start <= found.value <= span.end &&
              IsManipulation(bars[found.value], context, accHigh, accLow, minBreakout, rejectionPercent) &&
              forall i :: span.start <= i < found.value ==>
                !IsManipulation(bars[i], context, accHigh, accLow, minBreakout, rejectionPercent)
    ensures found.None? ==>
              forall i :: span.start <= i <= span.end ==>
                !IsManipulation(bars[i], context, accHigh, accLow, minBreakout, rejectionPercent)
  {
    found := None;
    var i := span.start;
    while i <= span.end
      invariant span.start <= i && (span.start <= span.end + 1 ==> i <= span.end + 1)
      invariant forall j :: span.start <= j < i && j <= span.end ==>
                  !IsManipulation(bars[j], context, accHigh, accLow, minBreakout, rejectionPercent)
    {
      if IsManipulation(bars[i], context, accHigh, accLow, minBreakout, rejectionPercent) {
        found := Some(i);
        return;
      }
      i := i + 1;
    }
  }

  // ---------------------------------------------------------------------------
  // Entry and volume
  // ---------------------------------------------------------------------------

  /** Direction and distances in pips of an entry. */
  datatype Entry = Entry(direction: TradeType, stopLossPips: real, takeProfitPips: real)

  /** The entry of ExecuteTradeBasedOnEntryModel: the stop two pips beyond the manipulation extreme, the
      target twice the stop distance; none in a neutral context or when the stop is not beyond the entry. */
  function EntryPlan(context: TrendDirection, entryPrice: real, extreme: real, pipSize: real): (r: Option<Entry>)
    requires pipSize > 0.0
    ensures context == Neutral ==> r.None?
    ensures context == Bullish ==> (r.Some? <==> entryPrice > extreme - pipSize * 2.0)
    ensures context == Bearish ==> (r.Some? <==> entryPrice < extreme + pipSize * 2.0)
    ensures r.Some? ==> r.value.stopLossPips > 0.0 && r.value.takeProfitPips == r.value.stopLossPips * 2.0 &&
                        (r.value.direction == Buy <==> context == Bullish)
    ensures r.Some? && context == Bullish ==>
              FromPips(r.value.stopLossPips, pipSize) == entryPrice - (extreme - pipSize * 2.0)
    ensures r.Some? && context == Bearish ==>
              FromPips(r.value.stopLossPips, pipSize) == (extreme + pipSize * 2.0) - entryPrice
  {
    match context
    case Bullish =>
      var stopLossPrice := extreme - pipSize * 2.0;
      var stopLossPips := ToPips(entryPrice - stopLossPrice, pipSize);
      PipsRoundTrip(entryPrice - stopLossPrice, pipSize);
      if stopLossPips <= 0.0 then None else Some(Entry(Buy, stopLossPips, stopLossPips * 2.0))
    case Bearish =>
      var stopLossPrice := extreme + pipSize * 2.0;
      var stopLossPips := ToPips(stopLossPrice - entryPrice, pipSize);
      PipsRoundTrip(stopLossPrice - entryPrice, pipSize);
      if stopLossPips <= 0.0 then None else Some(Entry(Sell, stopLossPips, stopLossPips * 2.0))
    case Neutral => None
  }

  /** A sell on the mirrored prices has the distances of the buy. */
  lemma EntryMirror(entryPrice: real, extreme: real, pipSize: real)
    requires pipSize > 0.0
    ensures var buy := EntryPlan(Bullish, entryPrice, extreme, pipSize);
            var sell := EntryPlan(Bearish, -entryPrice, -extreme, pipSize);
            buy.Some? == sell.Some? &&
            (buy.Some? ==> buy.value.(direction := Sell) == sell.value)
  {
    assert (-extreme + pipSize * 2.0) - -entryPrice == entryPrice - (extreme - pipSize * 2.0);
  }

  /** The symbol values CalculateVolume reads. */
  datatype AmdSymbol = AmdSymbol(pipSize: real, pipValue: real, lotSize: real, volumeStep: real,
                                 volumeMin: real, volumeMax: real)

  /** What the host guarantees of a tradable symbol. */
  predicate ValidSymbol(m: AmdSymbol)
  {
    m.pipSize > 0.0 && m.volumeStep > 0.0
  }

  /** The value of one pip for one unit of volume. */
  function PipValuePerUnit(m: AmdSymbol): real
    requires m.lotSize != 0.0
  {
    m.pipValue / m.lotSize
  }

  /** The units that lose `riskPercent` % of `balance` over the stop. */
  function RiskQuantity(balance: real, riskPercent: real, stopLossPips: real, pipValuePerUnit: real): real
    requires stopLossPips > 0.0 && pipValuePerUnit > 0.0
  {
    MulBelow(0.0, stopLossPips, pipValuePerUnit);
    balance * (riskPercent / 100.0) / (stopLossPips * pipValuePerUnit)
  }

  /** CalculateVolume: zero for a non-positive stop, a zero lot size or a non-positive pip value per unit;
      otherwise the risk quantity rounded to the nearest volume step, raised to the minimum volume when
      below it (never rejected) and lowered to the maximum when above it. */
  function Volume(stopLossPips: real, balance: real, riskPercent: real, m: AmdSymbol): (r: real)
    requires ValidSymbol(m)
    ensures stopLossPips <= 0.0 || m.lotSize == 0.0 || PipValuePerUnit(m) <= 0.0 ==> r == 0.0
    ensures stopLossPips > 0.0 && m.lotSize != 0.0 && PipValuePerUnit(m) > 0.0 ==>
              var q := RiskQuantity(balance, riskPercent, stopLossPips, PipValuePerUnit(m));
              var n := NearestStep(q, m.volumeStep);
              (n < m.volumeMin ==> r == m.volumeMin) &&
              (m.volumeMin <= n <= m.volumeMax ==> r == n && q - m.volumeStep / 2.0 < r <= q + m.volumeStep / 2.0 &&
                                                   OnStep(r, m.volumeStep)) &&
              (m.volumeMin <= n && m.volumeMax < n ==> r == m.volumeMax) &&
              (m.volumeMin <= m.volumeMax ==> m.volumeMin <= r <= m.volumeMax)
  {
    if stopLossPips <= 0.0 || m.lotSize == 0.0 then 0.0
    else if PipValuePerUnit(m) <= 0.0 then 0.0
    else
      var n := NearestStep(RiskQuantity(balance, riskPercent, stopLossPips, PipValuePerUnit(m)), m.volumeStep);
      if n < m.volumeMin then m.volumeMin
      else if n > m.volumeMax then m.volumeMax
      else n
  }

  /** The volume computation step by step. */
  method CalculateVolume(stopLossPips: real, balance: real, riskPercent: real, m: AmdSymbol)
    returns (volumeInUnits: real)
    requires ValidSymbol(m)
    ensures volumeInUnits == Volume(stopLossPips, balance, riskPercent, m)
  {
    if stopLossPips <= 0.0 {
      return 0.0;
    }
    if m.lotSize == 0.0 {
      return 0.0;
    }
    var pipValuePerUnit := PipValuePerUnit(m);
    if pipValuePerUnit <= 0.0 {
      return 0.0;
    }
    var quantityInUnits := RiskQuantity(balance, riskPercent, stopLossPips, pipValuePerUnit);
    volumeInUnits := NearestStep(quantityInUnits, m.volumeStep);
    if volumeInUnits < m.volumeMin {
      volumeInUnits := m.volumeMin;
    } else if volumeInUnits > m.volumeMax {
      volumeInUnits := m.volumeMax;
    }
  }

  /** The order of ExecuteTradeBasedOnEntryModel: none once the day's trades are used up, without a
      manipulation extreme, without a valid entry, or without a positive volume. */
  function EntryOrder(context: TrendDirection, entryPrice: real, extreme: real, tradesToday: int,
                      maxTradesPerDay: int, balance: real, riskPercent: real, m: AmdSymbol): (r: Option<Order>)
    requires ValidSymbol(m)
    ensures var plan := EntryPlan(context, entryPrice, extreme, m.pipSize);
            r.Some? <==> tradesToday < maxTradesPerDay && extreme != 0.0 && plan.Some? &&
                         Volume(plan.value.stopLossPips, balance, riskPercent, m) > 0.0
    ensures r.Some? ==> r.value.volume == Volume(r.value.stopLossPips, balance, riskPercent, m) > 0.0 &&
                        r.value.stopLossPips > 0.0 && r.value.takeProfitPips == r.value.stopLossPips * 2.0
    ensures r.Some? ==> EntryPlan(context, entryPrice, extreme, m.pipSize) ==
                        Some(Entry(r.value.direction, r.value.stopLossPips, r.value.takeProfitPips))
  {
    if tradesToday >= maxTradesPerDay || extreme == 0.0 then None
    else
      var plan := EntryPlan(context, entryPrice, extreme, m.pipSize);
      if plan.None? then None
      else
        var volume := Volume(plan.value.stopLossPips, balance, riskPercent, m);
        if volume <= 0.0 then None
        else Some(Order(plan.value.direction, volume, plan.value.stopLossPips, plan.value.takeProfitPips))
  }

  // ---------------------------------------------------------------------------
  // The robot
  // ---------------------------------------------------------------------------

  /** The AMD fields: accumulation high, low, start and end time; manipulation extreme and time. */
  datatype AmdState = AmdState(accumulationHigh: real, accumulationLow: real, accumulationStartTime: Option<int>,
                               accumulationEndTime: Option<int>, manipulationExtreme: real,
                               manipulationTime: Option<int>)

  /** The AMD fields after ResetAmdState; `None` is the host's MinValue. */
  const Cleared := AmdState(0.0, 0.0, None, None, 0.0, None)

  /** The AMD fields after CheckAmdSetup: the accumulation fields are set when there are enough bars and
      the window's range is accepted; nothing else changes. */
  function AccumulationOutcome(s: AmdState, bars: seq<Bar>, lookback: nat, pipSize: real, maxRangePips: real)
    : (r: AmdState)
    requires pipSize > 0.0
    ensures r.manipulationExtreme == s.manipulationExtreme && r.manipulationTime == s.manipulationTime
    ensures |bars| < lookback + 5 ==> r == s
    ensures r != s ==> var w := AccumulationSpan(|bars|, lookback);
                       0 <= w.start <= w.end < |bars| &&
                       r.accumulationLow < r.accumulationHigh &&
                       (forall k :: w.start <= k <= w.end ==>
                          r.accumulationLow <= bars[k].low && bars[k].high <= r.accumulationHigh) &&
                       r.accumulationHigh - r.accumulationLow <= FromPips(maxRangePips, pipSize)
    ensures lookback == 0 ==> r == s
    ensures |bars| >= lookback + 5 && lookback > 0 ==>
              var w := AccumulationSpan(|bars|, lookback);
              0 <= w.start <= w.end < |bars| &&
              var high := WindowHigh(bars, w.start, w.end);
              var low := WindowLow(bars, w.start, w.end);
              (RangeAccepted(high, low, pipSize, maxRangePips) ==>
                 r == s.(accumulationHigh := high, accumulationLow := low,
                         accumulationStartTime := Some(bars[w.start].openTime),
                         accumulationEndTime := Some(bars[w.end].openTime))) &&
              (!RangeAccepted(high, low, pipSize, maxRangePips) ==> r == s)
  {
    if |bars| < lookback + 5 then s
    else
      var w := AccumulationSpan(|bars|, lookback);
      if w.start > w.end then s
      else
        var high := WindowHigh(bars, w.start, w.end);
        var low := WindowLow(bars, w.start, w.end);
        if !RangeAccepted(high, low, pipSize, maxRangePips) then s
        else
          AcceptedRangeBounds(high, low, pipSize, maxRangePips);
          WindowExtremes(bars, w.start, w.end);
          s.(accumulationHigh := high, accumulationLow := low,
             accumulationStartTime := Some(bars[w.start].openTime), accumulationEndTime := Some(bars[w.end].openTime))
  }

  /** The robot's state between bars: the day's trade counter and the AMD fields. The main-timeframe bars,
      the four timeframe readings, the symbol, the balance, the server day and whether the host filled an
      order are passed in. */
  class AmdBot {
    const riskPercent: real
    const maxTradesPerDay: int
    const accumulationLookback: nat
    const accumulationMaxRangePips: real
    const manipulationMinBreakoutPips: real
    const manipulationRejectionPercent: real

    var tradesToday: int
    var lastTradeDate: Option<int>
    var accumulationHigh: real
    var accumulationLow: real
    var accumulationStartTime: Option<int>
    var accumulationEndTime: Option<int>
    var manipulationExtreme: real
    var manipulationTime: Option<int>

    ghost function Amd(): AmdState
      reads this
    {
      AmdState(accumulationHigh, accumulationLow, accumulationStartTime, accumulationEndTime, manipulationExtreme,
               manipulationTime)
    }

    constructor(riskPercent: real, maxTradesPerDay: int, accumulationLookback: nat, accumulationMaxRangePips: real,
                manipulationMinBreakoutPips: real, manipulationRejectionPercent: real)
      ensures this.riskPercent == riskPercent && this.maxTradesPerDay == maxTradesPerDay
      ensures this.accumulationLookback == accumulationLookback
      ensures this.accumulationMaxRangePips == accumulationMaxRangePips
      ensures this.manipulationMinBreakoutPips == manipulationMinBreakoutPips
      ensures this.manipulationRejectionPercent == manipulationRejectionPercent
      ensures tradesToday == 0 && lastTradeDate.None? && Amd() == Cleared
    {
      this.riskPercent := riskPercent;
      this.maxTradesPerDay := maxTradesPerDay;
      this.accumulationLookback := accumulationLookback;
      this.accumulationMaxRangePips := accumulationMaxRangePips;
      this.manipulationMinBreakoutPips := manipulationMinBreakoutPips;
      this.manipulationRejectionPercent := manipulationRejectionPercent;
      tradesToday := 0;
      lastTradeDate := None;
      accumulationHigh, accumulationLow := 0.0, 0.0;
      accumulationStartTime, accumulationEndTime := None, None;
      manipulationExtreme := 0.0;
      manipulationTime := None;
    }

    /** OnMainBarOpened: a new server day resets the trade counter; with trades left and a decided context,
        the AMD fields are reset and the setup is checked. The setup is never found, so no order is sent. */
    method OnMainBarOpened(bars: seq<Bar>, readings: Readings, m: AmdSymbol, today: int) returns (order: Option<Order>)
      requires ValidSymbol(m)
      modifies this
      ensures order.None?
      ensures old(lastTradeDate) != Some(today) ==> tradesToday == 0 && lastTradeDate == Some(today)
      ensures old(lastTradeDate) == Some(today) ==> tradesToday == old(tradesToday) && lastTradeDate == old(lastTradeDate)
      ensures Amd() == if tradesToday >= maxTradesPerDay || ContextOf(readings) == Neutral then old(Amd())
                       else AccumulationOutcome(Cleared, bars, accumulationLookback, m.pipSize, accumulationMaxRangePips)
    {
      order := None;
      if lastTradeDate != Some(today) {
        tradesToday := 0;
        lastTradeDate := Some(today);
      }
      if tradesToday >= maxTradesPerDay {
        return;
      }
      var marketContext := ContextOf(readings);
      if marketContext == Neutral {
        return;
      }
      ResetAmdState();
      var amdSetupDetected := CheckAmdSetup(bars, m.pipSize);
      if amdSetupDetected {
        // ExecuteTradeBasedOnEntryModel would run here
        assert false;
      }
    }

    /** ResetAmdState: the AMD fields back to zero and MinValue. */
    method ResetAmdState()
      modifies this`accumulationHigh, this`accumulationLow, this`accumulationStartTime, this`accumulationEndTime,
               this`manipulationExtreme, this`manipulationTime
      ensures Amd() == Cleared
    {
      accumulationHigh := 0.0;
      accumulationLow := 0.0;
      accumulationStartTime := None;
      accumulationEndTime := None;
      manipulationExtreme := 0.0;
      manipulationTime := None;
    }

    /** CheckAmdSetup: the accumulation window and its range, then the manipulation scan, whose range is
        always empty; the setup is never reported. */
    method CheckAmdSetup(bars: seq<Bar>, pipSize: real) returns (detected: bool)
      requires pipSize > 0.0
      modifies this`accumulationHigh, this`accumulationLow, this`accumulationStartTime, this`accumulationEndTime
      ensures !detected
      ensures Amd() == AccumulationOutcome(old(Amd()), bars, accumulationLookback, pipSize, accumulationMaxRangePips)
    {
      detected := false;
      if |bars| < accumulationLookback + 5 {
        return;
      }
      var window := AccumulationSpan(|bars|, accumulationLookback);
      var accumulationAnalysisStartIndex := window.start;
      var accumulationAnalysisEndIndex := window.end;
      if accumulationAnalysisStartIndex > accumulationAnalysisEndIndex {
        // an empty window leaves the sentinels in place, whose range is negative
        return;
      }
      var high, low := AccumulationExtremes(bars, accumulationAnalysisStartIndex, accumulationAnalysisEndIndex);
      if !RangeAccepted(high, low, pipSize, accumulationMaxRangePips) {
        return;
      }
      accumulationHigh := high;
      accumulationLow := low;
      accumulationStartTime := Some(bars[accumulationAnalysisStartIndex].openTime);
      accumulationEndTime := Some(bars[accumulationAnalysisEndIndex].openTime);
      var manipulation := ManipulationSpan(|bars|, accumulationLookback);
      if manipulation.start > manipulation.end {
        return;
      }
      // FindManipulation over the span would run here
      assert false;
    }

    /** ExecuteTradeBasedOnEntryModel: the entry at the last closed bar's close, with the order of
        EntryOrder; a filled order counts towards the day. */
    method ExecuteTradeBasedOnEntryModel(context: TrendDirection, bars: seq<Bar>, m: AmdSymbol, balance: real,
                                         today: int, filled: bool) returns (order: Option<Order>)
      requires ValidSymbol(m) && |bars| >= 2
      modifies this`tradesToday, this`lastTradeDate
      ensures order == EntryOrder(context, bars[|bars| - 2].close, manipulationExtreme, old(tradesToday),
                                  maxTradesPerDay, balance, riskPercent, m)
      ensures tradesToday == old(tradesToday) + (if order.Some? && filled then 1 else 0)
      ensures lastTradeDate == if order.Some? && filled then Some(today) else old(lastTradeDate)
    {
      order := None;
      if tradesToday >= maxTradesPerDay {
        return;
      }
      if manipulationExtreme == 0.0 {
        return;
      }
      var entryPrice := bars[|bars| - 2].close;
      var plan := EntryPlan(context, entryPrice, manipulationExtreme, m.pipSize);
      if plan.None? {
        return;
      }
      var volumeInUnits := CalculateVolume(plan.value.stopLossPips, balance, riskPercent, m);
      if volumeInUnits <= 0.0 {
        return;
      }
      order := Some(Order(plan.value.direction, volumeInUnits, plan.value.stopLossPips, plan.value.takeProfitPips));
      if filled {
        tradesToday := tradesToday + 1;
        lastTradeDate := Some(today);
      }
    }
  }
}
