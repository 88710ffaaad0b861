/** MarketStructureBot.cs: a trend tracker over the chart's swing highs and lows that trades the break of
    structure, with stop and target taken from the turning points of an hourly ZigZag series. */
module StructureBot {
  import opened Common

  /** A turning point: price, bar open time, bar index and whether it is a high. */
  datatype ZigZagPoint = ZigZagPoint(price: real, time: int, index: int, isHigh: bool)

  datatype MarketTrend = NoTrend | Uptrend | Downtrend

  // ---------------------------------------------------------------------------
  // Swing tests
  // ---------------------------------------------------------------------------

  /** The bar-count guard at the head of IdentifyMarketStructure, as written. */
  predicate GuardAsWritten(currentIndex: int, depth: nat)
  {
    currentIndex >= depth + 1
  }

  /** The guard the swing tests need: besides the written guard, the whole window of `depth` bars on each
      side of `currentIndex - depth` lies inside the series. */
  predicate SwingWindowReady(currentIndex: int, depth: nat)
  {
    currentIndex >= depth + 1 && currentIndex - depth >= depth
  }

  /** The written guard admits bar counts whose left window starts before bar 0: with depth 2 and four
      bars, the test at bar 1 reads the high of bar -1. */
  lemma GuardAdmitsNegativeIndex()
    ensures GuardAsWritten(3, 2) && (3 - 2) - 2 < 0
    ensures !SwingWindowReady(3, 2)
  {
  }

  /** Under the corrected guard every index the swing tests read is a bar of the series, and the guard
      agrees with the written one whenever depth is at most 1. */
  lemma SwingWindowInBounds(currentIndex: int, depth: nat)
    ensures SwingWindowReady(currentIndex, depth) ==>
              0 <= currentIndex - depth - depth && currentIndex - depth + depth == currentIndex
    ensures depth <= 1 ==> (SwingWindowReady(currentIndex, depth) <==> GuardAsWritten(currentIndex, depth))
    ensures SwingWindowReady(currentIndex, depth) ==> GuardAsWritten(currentIndex, depth)
  {
  }

  /** Bar `k` is a swing high: no high among the `depth` bars before it is above it, and every high among
      the `depth` bars after it is strictly below it. */
  predicate IsSwingHigh(bars: seq<Bar>, k: int, depth: nat)
    requires depth <= k && k + depth < |bars|
  {
    (forall j :: k - depth <= j < k ==> bars[j].high <= bars[k].high) &&
    (forall j :: k < j <= k + depth ==> bars[j].high < bars[k].high)
  }

  /** The mirror of IsSwingHigh on the lows. */
  predicate IsSwingLow(bars: seq<Bar>, k: int, depth: nat)
    requires depth <= k && k + depth < |bars|
  {
    (forall j :: k - depth <= j < k ==> bars[j].low >= bars[k].low) &&
    (forall j :: k < j <= k + depth ==> bars[j].low > bars[k].low)
  }

  /** The swing-high loop, including the repeated neighbour test for a depth of 1. */
  method SwingHighAt(bars: seq<Bar>, k: int, depth: nat) returns (isSwingHigh: bool)
    requires depth <= k && k + depth < |bars|
    ensures isSwingHigh <==> IsSwingHigh(bars, k, depth)
  {
    var highToCheck := bars[k].high;
    isSwingHigh := true;
    var i := 1;
    while i <= depth
      invariant 1 <= i <= depth + 1
      invariant isSwingHigh
      invariant forall j :: k - i < j < k ==> bars[j].high <= highToCheck
      invariant forall j :: k < j < k + i ==> bars[j].high < highToCheck
    {
      if bars[k - i].high > highToCheck || bars[k + i].high >= highToCheck {
        isSwingHigh := false;
        break;
      }
      i := i + 1;
    }
    if depth == 1 && (bars[k - 1].high > highToCheck || bars[k + 1].high >= highToCheck) {
      isSwingHigh := false;
    }
  }

  /** The swing-low loop, the mirror of SwingHighAt. */
  method SwingLowAt(bars: seq<Bar>, k: int, depth: nat) returns (isSwingLow: bool)
    requires depth <= k && k + depth < |bars|
    ensures isSwingLow <==> IsSwingLow(bars, k, depth)
  {
    var lowToCheck := bars[k].low;
    isSwingLow := true;
    var i := 1;
    while i <= depth
      invariant 1 <= i <= depth + 1
      invariant isSwingLow
      invariant forall j :: k - i < j < k ==> bars[j].low >= lowToCheck
      invariant forall j :: k < j < k + i ==> bars[j].low > lowToCheck
    {
      if bars[k - i].low < lowToCheck || bars[k + i].low <= lowToCheck {
        isSwingLow := false;
        break;
      }
      i := i + 1;
    }
    if depth == 1 && (bars[k - 1].low < lowToCheck || bars[k + 1].low <= lowToCheck) {
      isSwingLow := false;
    }
  }

  /** Bar `b` is examined by the lookback over the `range` bars ending at `ci` and lies after bar `after`. */
  predicate InLookback(b: int, ci: int, range: int, after: int)
  {
    ci - range < b <= ci && 0 <= b && after < b
  }

  /** The lookback after a bearish break: over the `range` bars ending at `ci`, from the newest back, the
      lowest low among bars after `after`, a later bar winning ties; `ci` when no bar qualifies. */
  method LowestLowAfter(bars: seq<Bar>, ci: int, range: int, after: int) returns (idx: int)
    requires 0 <= ci < |bars|
    ensures idx == ci || (after < idx <= ci && ci - range < idx)
    ensures (exists b :: InLookback(b, ci, range, after)) ==>
              InLookback(idx, ci, range, after) &&
              (forall b :: InLookback(b, ci, range, after) ==> bars[idx].low <= bars[b].low) &&
              (forall b :: InLookback(b, ci, range, after) && idx < b ==> bars[idx].low < bars[b].low)
    ensures after >= ci ==> idx == ci
  {
    var found := false;
    var minLowInRange := 0.0;
    idx := ci;
    var k := 0;
    while k < range
      invariant 0 <= k && (range >= 0 ==> k <= range)
      invariant found ==> InLookback(idx, ci, range, after) && ci - k < idx && minLowInRange == bars[idx].low
      invariant !found ==> idx == ci
      invariant forall b :: InLookback(b, ci, range, after) && ci - k < b ==> found && minLowInRange <= bars[b].low
      invariant forall b :: InLookback(b, ci, range, after) && ci - k < b && idx < b ==> minLowInRange < bars[b].low
    {
      var barToExamine := ci - k;
      if barToExamine >= 0 && barToExamine > after {
        if !found || bars[barToExamine].low < minLowInRange {
          minLowInRange := bars[barToExamine].low;
          idx := barToExamine;
          found := true;
        }
      }
      k := k + 1;
    }
  }

  /** The lookback after a bullish break, the mirror of LowestLowAfter on the highs. */
  method HighestHighAfter(bars: seq<Bar>, ci: int, range: int, after: int) returns (idx: int)
    requires 0 <= ci < |bars|
    ensures idx == ci || (after < idx <= ci && ci - range < idx)
    ensures (exists b :: InLookback(b, ci, range, after)) ==>
              InLookback(idx, ci, range, after) &&
              (forall b :: InLookback(b, ci, range, after) ==> bars[idx].high >= bars[b].high) &&
              (forall b :: InLookback(b, ci, range, after) && idx < b ==> bars[idx].high > bars[b].high)
    ensures after >= ci ==> idx == ci
  {
    var found := false;
    var maxHighInRange := 0.0;
    idx := ci;
    var k := 0;
    while k < range
      invariant 0 <= k && (range >= 0 ==> k <= range)
      invariant found ==> InLookback(idx, ci, range, after) && ci - k < idx && maxHighInRange == bars[idx].high
      invariant !found ==> idx == ci
      invariant forall b :: InLookback(b, ci, range, after) && ci - k < b ==> found && maxHighInRange >= bars[b].high
      invariant forall b :: InLookback(b, ci, range, after) && ci - k < b && idx < b ==> maxHighInRange > bars[b].high
    {
      var barToExamine := ci - k;
      if barToExamine >= 0 && barToExamine > after {
        if !found || bars[barToExamine].high > maxHighInRange {
          maxHighInRange := bars[barToExamine].high;
          idx := barToExamine;
          found := true;
        }
      }
      k := k + 1;
    }
  }

  // ---------------------------------------------------------------------------
  // The structure state machine
  // ---------------------------------------------------------------------------

  /** The tracker's fields: trend, the four structure points, and the break-of-structure signal of this bar. */
  datatype Tracker = Tracker(trend: MarketTrend, hh: Option<ZigZagPoint>, hl: Option<ZigZagPoint>,
                             lh: Option<ZigZagPoint>, ll: Option<ZigZagPoint>,
                             bos: bool, bosDirection: TradeType, bosStopLevel: real)

  function HighPoint(bars: seq<Bar>, i: int): ZigZagPoint
    requires 0 <= i < |bars|
  {
    ZigZagPoint(bars[i].high, bars[i].openTime, i, true)
  }

  function LowPoint(bars: seq<Bar>, i: int): ZigZagPoint
    requires 0 <= i < |bars|
  {
    ZigZagPoint(bars[i].low, bars[i].openTime, i, false)
  }

  /** The swing detection half: a swing at `currentIndex - depth` replaces the stored swing point unless
      that already has the same price and index. */
  function Swings(s: Tracker, bars: seq<Bar>, depth: nat): (r: Tracker)
    requires SwingWindowReady(|bars| - 1, depth)
    ensures r == s.(hh := r.hh, ll := r.ll)
    ensures r.hh != s.hh ==> r.hh == Some(HighPoint(bars, |bars| - 1 - depth)) && IsSwingHigh(bars, |bars| - 1 - depth, depth)
    ensures r.ll != s.ll ==> r.ll == Some(LowPoint(bars, |bars| - 1 - depth)) && IsSwingLow(bars, |bars| - 1 - depth, depth)
    ensures IsSwingHigh(bars, |bars| - 1 - depth, depth) ==>
              r.hh.Some? && r.hh.value.price == bars[|bars| - 1 - depth].high && r.hh.value.index == |bars| - 1 - depth
    ensures IsSwingLow(bars, |bars| - 1 - depth, depth) ==>
              r.ll.Some? && r.ll.value.price == bars[|bars| - 1 - depth].low && r.ll.value.index == |bars| - 1 - depth
  {
    var k := |bars| - 1 - depth;
    var hh := if IsSwingHigh(bars, k, depth) && (s.hh.None? || s.hh.value.price != bars[k].high || s.hh.value.index != k)
              then Some(HighPoint(bars, k)) else s.hh;
    var ll := if IsSwingLow(bars, k, depth) && (s.ll.None? || s.ll.value.price != bars[k].low || s.ll.value.index != k)
              then Some(LowPoint(bars, k)) else s.ll;
    s.(hh := hh, ll := ll)
  }

  /** The continuation test of an uptrend, as written: it compares the last higher high with itself. */
  predicate ContinuationAsWritten(hh: ZigZagPoint, hl: ZigZagPoint): (r: bool)
    ensures !r
  {
    hh.index > hl.index && hh.price > hh.price
  }

  /** A close below the higher low ends an uptrend: sell signal with the stop at the higher high, which
      becomes the lower high; the low of the current bar is the new lower low. */
  function BreakDown(s: Tracker, bars: seq<Bar>): Tracker
    requires |bars| > 0 && s.hh.Some?
  {
    s.(bos := true, bosDirection := Sell, bosStopLevel := s.hh.value.price, lh := s.hh,
       ll := Some(LowPoint(bars, |bars| - 1)), trend := Downtrend, hh := None, hl := None)
  }

  /** A close above the lower high ends a downtrend, the mirror of BreakDown. */
  function BreakUp(s: Tracker, bars: seq<Bar>): Tracker
    requires |bars| > 0 && s.ll.Some?
  {
    s.(bos := true, bosDirection := Buy, bosStopLevel := s.ll.value.price, hl := s.ll,
       hh := Some(HighPoint(bars, |bars| - 1)), trend := Uptrend, lh := None, ll := None)
  }

  /** The trend half of IdentifyMarketStructure on the newest bar, the one that has just opened. */
  function Transition(s: Tracker, bars: seq<Bar>): (r: Tracker)
    requires |bars| > 0
    ensures s.trend != NoTrend ==> r.trend != NoTrend
    ensures r.bos != s.bos ==> r.bos && r.trend != s.trend && s.trend != NoTrend
    ensures r.bos != s.bos ==> (r.bosDirection == Sell <==> r.trend == Downtrend)
  {
    var close := bars[|bars| - 1].close;
    match s.trend
    case NoTrend =>
      if s.hl.None? && s.ll.Some? && s.hh.Some? && s.ll.value.index < s.hh.value.index &&
         s.hh.value.price > s.ll.value.price then
        s.(hl := s.ll, trend := Uptrend)
      else if s.lh.None? && s.hh.Some? && s.ll.Some? && s.hh.value.index < s.ll.value.index &&
              s.ll.value.price < s.hh.value.price then
        s.(lh := s.hh, trend := Downtrend)
      else s
    case Uptrend =>
      if s.hl.None? || s.hh.None? then s
      else if close < s.hl.value.price then BreakDown(s, bars)
      else s
    case Downtrend =>
      if s.lh.None? || s.ll.None? then s
      else if close > s.lh.value.price then BreakUp(s, bars)
      else s
  }

  /** IdentifyMarketStructure on `bars` (the last one is the bar that has just opened, whose close is the current price). */
  function Identify(s: Tracker, bars: seq<Bar>, depth: nat): (r: Tracker)
    ensures !SwingWindowReady(|bars| - 1, depth) ==> r == s
    ensures r.bos && !s.bos ==> |bars| > 0
  {
    if !SwingWindowReady(|bars| - 1, depth) then s
    else Transition(Swings(s, bars, depth), bars)
  }

  /** In an uptrend with both points present, a close below the higher low is exactly what breaks it;
      the break gives a sell at the old higher high, which becomes the lower high, and clears HH and HL. */
  lemma UptrendBreak(s: Tracker, bars: seq<Bar>)
    requires |bars| > 0 && s.trend == Uptrend && s.hl.Some? && s.hh.Some?
    ensures var r := Transition(s, bars);
            (r.trend == Downtrend <==> bars[|bars| - 1].close < s.hl.value.price) &&
            (r.trend == Downtrend ==>
               r.bos && r.bosDirection == Sell && r.bosStopLevel == s.hh.value.price && r.lh == s.hh &&
               r.hh.None? && r.hl.None? && r.ll == Some(LowPoint(bars, |bars| - 1))) &&
            (r.trend == Uptrend ==> r == s)
  {
  }

  /** In a downtrend with both points present, a close above the lower high is exactly what breaks it. */
  lemma DowntrendBreak(s: Tracker, bars: seq<Bar>)
    requires |bars| > 0 && s.trend == Downtrend && s.lh.Some? && s.ll.Some?
    ensures var r := Transition(s, bars);
            (r.trend == Uptrend <==> bars[|bars| - 1].close > s.lh.value.price) &&
            (r.trend == Uptrend ==>
               r.bos && r.bosDirection == Buy && r.bosStopLevel == s.ll.value.price && r.hl == s.ll &&
               r.lh.None? && r.ll.None? && r.hh == Some(HighPoint(bars, |bars| - 1))) &&
            (r.trend == Downtrend ==> r == s)
  {
  }

  /** Without a trend, an uptrend starts when the swing low precedes a higher swing high (and no higher
      low is stored yet); the stored swing low becomes the higher low. Failing that, a downtrend starts
      when the swing high precedes a lower swing low (and no lower high is stored yet); the stored swing
      high becomes the lower high. No break is signalled, and with neither nothing changes. */
  lemma TrendStart(s: Tracker, bars: seq<Bar>)
    requires |bars| > 0 && s.trend == NoTrend
    ensures var r := Transition(s, bars);
            r.bos == s.bos && r.hh == s.hh && r.ll == s.ll &&
            (r.trend == Uptrend <==> s.hl.None? && s.ll.Some? && s.hh.Some? && s.ll.value.index < s.hh.value.index &&
                                      s.hh.value.price > s.ll.value.price) &&
            (r.trend == Uptrend ==> r.hl == s.ll) &&
            (r.trend == Downtrend <==>
               !(s.hl.None? && s.ll.Some? && s.hh.Some? && s.ll.value.index < s.hh.value.index &&
                 s.hh.value.price > s.ll.value.price) &&
               s.lh.None? && s.hh.Some? && s.ll.Some? && s.hh.value.index < s.ll.value.index &&
               s.ll.value.price < s.hh.value.price) &&
            (r.trend == Downtrend ==> r.lh == s.hh) &&
            (r.trend == NoTrend ==> r == s)
  {
  }

  // ---------------------------------------------------------------------------
  // Classified ZigZag points
  // ---------------------------------------------------------------------------

  /** A non-NaN, non-zero value of the ZigZag output. */
  predicate IsPivotValue(v: Option<real>)
  {
    v.Some? && v.value != 0.0
  }

  datatype RawPoint = RawPoint(price: real, time: int, index: int)

  /** The last bar among the first `n` that opens at or before `beforeTime`, or -1. */
  function CutoffIndex(bars: seq<Bar>, beforeTime: int, n: int): (r: int)
    requires 0 <= n <= |bars|
    ensures -1 <= r < n
    ensures r >= 0 ==> bars[r].openTime <= beforeTime
    ensures forall j :: r < j < n ==> bars[j].openTime > beforeTime
  {
    if n == 0 then -1
    else if bars[n - 1].openTime <= beforeTime then n - 1
    else CutoffIndex(bars, beforeTime, n - 1)
  }

  /** The output's turning points at indices lo..hi-1, oldest first. */
  function RawFrom(result: seq<Option<real>>, bars: seq<Bar>, lo: int, hi: int): seq<RawPoint>
    requires 0 <= lo <= hi <= |result| && hi <= |bars|
    decreases hi - lo
  {
    if lo == hi then []
    else (if IsPivotValue(result[lo]) then [RawPoint(result[lo].value, bars[lo].openTime, lo)] else []) +
         RawFrom(result, bars, lo + 1, hi)
  }

  /** Every listed point is a turning point of the output at an index in lo..hi-1, with that bar's value and
      open time. */
  predicate FromOutput(raw: seq<RawPoint>, result: seq<Option<real>>, bars: seq<Bar>, lo: int, hi: int)
    requires hi <= |result| && hi <= |bars|
  {
    forall j :: 0 <= j < |raw| ==>
      0 <= lo <= raw[j].index < hi && IsPivotValue(result[raw[j].index]) &&
      raw[j].price == result[raw[j].index].value && raw[j].time == bars[raw[j].index].openTime
  }

  predicate IndexAscending(raw: seq<RawPoint>)
  {
    forall j, m :: 0 <= j < m < |raw| ==> raw[j].index < raw[m].index
  }

  /** Every turning point of the output at an index in lo..hi-1 is listed. */
  predicate ListsEvery(raw: seq<RawPoint>, result: seq<Option<real>>, lo: int, hi: int)
    requires 0 <= lo && hi <= |result|
  {
    forall i :: lo <= i < hi && IsPivotValue(result[i]) ==> exists j :: 0 <= j < |raw| && raw[j].index == i
  }

  /** Every point RawFrom lists is a turning point of the output between lo and hi. */
  lemma {:induction false} RawFromSound(result: seq<Option<real>>, bars: seq<Bar>, lo: int, hi: int)
    requires 0 <= lo <= hi <= |result| && hi <= |bars|
    ensures FromOutput(RawFrom(result, bars, lo, hi), result, bars, lo, hi)
    decreases hi - lo
  {
    if lo < hi {
      RawFromSound(result, bars, lo + 1, hi);
      var rest := RawFrom(result, bars, lo + 1, hi);
      var raw := RawFrom(result, bars, lo, hi);
      if IsPivotValue(result[lo]) {
        assert raw == [RawPoint(result[lo].value, bars[lo].openTime, lo)] + rest;
        forall j | 1 <= j < |raw|
          ensures raw[j] == rest[j - 1]
        {
        }
      } else {
        assert raw == rest;
      }
    }
  }

  /** RawFrom lists its points by strictly ascending index. */
  lemma {:induction false} RawFromSorted(result: seq<Option<real>>, bars: seq<Bar>, lo: int, hi: int)
    requires 0 <= lo <= hi <= |result| && hi <= |bars|
    ensures IndexAscending(RawFrom(result, bars, lo, hi))
    decreases hi - lo
  {
    if lo < hi {
      RawFromSorted(result, bars, lo + 1, hi);
      RawFromSound(result, bars, lo + 1, hi);
      var rest := RawFrom(result, bars, lo + 1, hi);
      var raw := RawFrom(result, bars, lo, hi);
      if IsPivotValue(result[lo]) {
        assert raw == [RawPoint(result[lo].value, bars[lo].openTime, lo)] + rest;
        forall j, m | 0 <= j < m < |raw|
          ensures raw[j].index < raw[m].index
        {
          assert raw[m] == rest[m - 1];
          if j > 0 {
            assert raw[j] == rest[j - 1];
          }
        }
      } else {
        assert raw == rest;
      }
    }
  }

  /** Every turning point of the output between lo and hi is listed by RawFrom. */
  lemma {:induction false} RawFromComplete(result: seq<Option<real>>, bars: seq<Bar>, lo: int, hi: int)
    requires 0 <= lo <= hi <= |result| && hi <= |bars|
    ensures ListsEvery(RawFrom(result, bars, lo, hi), result, lo, hi)
    decreases hi - lo
  {
    if lo < hi {
      RawFromComplete(result, bars, lo + 1, hi);
      var rest := RawFrom(result, bars, lo + 1, hi);
      var raw := RawFrom(result, bars, lo, hi);
      if IsPivotValue(result[lo]) {
        assert raw == [RawPoint(result[lo].value, bars[lo].openTime, lo)] + rest;
        forall i | lo <= i < hi && IsPivotValue(result[i])
          ensures exists j :: 0 <= j < |raw| && raw[j].index == i
        {
          if i == lo {
            assert raw[0].index == i;
          } else {
            var j :| 0 <= j < |rest| && rest[j].index == i;
            assert raw[j + 1].index == i;
          }
        }
      } else {
        assert raw == rest;
      }
    }
  }

  function Reverse<T>(s: seq<T>): (r: seq<T>)
    ensures |r| == |s|
  {
    if |s| == 0 then [] else Reverse(s[1..]) + [s[0]]
  }

  lemma {:induction false} ReverseAppend<T>(a: seq<T>, b: seq<T>)
    ensures Reverse(a + b) == Reverse(b) + Reverse(a)
  {
    if |a| == 0 {
      assert a + b == b;
    } else {
      assert (a + b)[1..] == a[1..] + b;
      ReverseAppend(a[1..], b);
    }
  }

  lemma {:induction false} ReverseReverse<T>(s: seq<T>)
    ensures Reverse(Reverse(s)) == s
  {
    if |s| > 0 {
      ReverseAppend(Reverse(s[1..]), [s[0]]);
      ReverseReverse(s[1..]);
      assert Reverse([s[0]]) == [s[0]];
    }
  }

  function Abs(x: real): real
  {
    if x < 0.0 then -x else x
  }

  /** Labels alternate from `firstIsHigh`. */
  function Alternating(raw: seq<RawPoint>, firstIsHigh: bool): (r: seq<ZigZagPoint>)
    ensures |r| == |raw|
  {
    seq(|raw|, j requires 0 <= j < |raw| =>
      ZigZagPoint(raw[j].price, raw[j].time, raw[j].index, if j % 2 == 0 then firstIsHigh else !firstIsHigh))
  }

  /** Labelling of the raw points: none for no points; for a single point a guess from the bar's own high
      and low within half a pip, kept only when exactly one side matches; otherwise the first point is a
      high when it is above the second and the labels alternate. */
  function Classify(raw: seq<RawPoint>, bars: seq<Bar>, pipSize: real): seq<ZigZagPoint>
  {
    if |raw| == 0 then []
    else if |raw| < 2 then
      var p := raw[0];
      if 0 <= p.index < |bars| then
        var isHighGuess := Abs(p.price - bars[p.index].high) < pipSize * 0.5 && p.price > bars[p.index].low + pipSize * 0.5;
        var isLowGuess := Abs(p.price - bars[p.index].low) < pipSize * 0.5 && p.price < bars[p.index].high - pipSize * 0.5;
        if isHighGuess && !isLowGuess then [ZigZagPoint(p.price, p.time, p.index, true)]
        else if isLowGuess && !isHighGuess then [ZigZagPoint(p.price, p.time, p.index, false)]
        else []
      else []
    else Alternating(raw, raw[0].price > raw[1].price)
  }

  /** The turning points of `result` up to the last bar opening at or before `beforeTime`, oldest first;
      none when no bar qualifies or the output is shorter than that bar. */
  function RawPoints(result: seq<Option<real>>, bars: seq<Bar>, beforeTime: int): seq<RawPoint>
  {
    var c := CutoffIndex(bars, beforeTime, |bars|);
    if 0 <= c < |result| then RawFrom(result, bars, 0, c + 1) else []
  }

  /** GetClassifiedZigZagPoints: the labelled turning points of `result` up to the last bar opening at or
      before `beforeTime`. */
  function ClassifiedPoints(result: seq<Option<real>>, bars: seq<Bar>, beforeTime: int, pipSize: real): seq<ZigZagPoint>
  {
    Classify(RawPoints(result, bars, beforeTime), bars, pipSize)
  }

  /** Labelling keeps at most the raw points, and from two points on it is the alternation. */
  lemma ClassifyShape(raw: seq<RawPoint>, bars: seq<Bar>, pipSize: real)
    ensures |Classify(raw, bars, pipSize)| <= |raw|
    ensures |raw| >= 2 ==> Classify(raw, bars, pipSize) == Alternating(raw, raw[0].price > raw[1].price)
  {
  }

  /** The two backward loops, the reversal and the labelling loop. */
  method GetClassifiedZigZagPoints(result: seq<Option<real>>, bars: seq<Bar>, beforeTime: int, pipSize: real)
    returns (points: seq<ZigZagPoint>)
    ensures points == ClassifiedPoints(result, bars, beforeTime, pipSize)
  {
    var barIndexBefore := FindCutoff(bars, beforeTime);
    if barIndexBefore < 0 {
      return [];
    }
    var rawPoints := CollectRaw(result, bars, barIndexBefore);
    assert rawPoints == RawPoints(result, bars, beforeTime);
    ClassifyShape(rawPoints, bars, pipSize);
    if |rawPoints| < 2 {
      points := Classify(rawPoints, bars, pipSize);
      return;
    }
    points := Label(rawPoints);
  }

  /** The backward search for the last bar opening at or before `beforeTime`; -1 when there is none. */
  method FindCutoff(bars: seq<Bar>, beforeTime: int) returns (barIndexBefore: int)
    ensures barIndexBefore == CutoffIndex(bars, beforeTime, |bars|)
  {
    barIndexBefore := -1;
    var i := |bars| - 1;
    while i >= 0
      invariant -1 <= i < |bars|
      invariant forall j :: i < j < |bars| ==> bars[j].openTime > beforeTime
    {
      if bars[i].openTime <= beforeTime {
        barIndexBefore := i;
        break;
      }
      i := i - 1;
    }
    CutoffUnique(bars, beforeTime, |bars|, barIndexBefore);
  }

  /** The backward collection loop followed by the reversal into chronological order. */
  method CollectRaw(result: seq<Option<real>>, bars: seq<Bar>, barIndexBefore: int) returns (raw: seq<RawPoint>)
    requires 0 <= barIndexBefore < |bars|
    ensures raw == if barIndexBefore < |result| then RawFrom(result, bars, 0, barIndexBefore + 1) else []
  {
    var newestFirst: seq<RawPoint> := [];
    if barIndexBefore >= |result| {
      return [];
    }
    var i := barIndexBefore;
    while i >= 0 && i < |result|
      invariant -1 <= i <= barIndexBefore
      invariant newestFirst == Reverse(RawFrom(result, bars, i + 1, barIndexBefore + 1))
    {
      var here := if IsPivotValue(result[i]) then [RawPoint(result[i].value, bars[i].openTime, i)] else [];
      ReverseAppend(here, RawFrom(result, bars, i + 1, barIndexBefore + 1));
      assert Reverse(here) == here;
      newestFirst := newestFirst + here;
      i := i - 1;
    }
    ReverseReverse(RawFrom(result, bars, 0, barIndexBefore + 1));
    raw := Reverse(newestFirst);
  }

  /** The labelling loop for two or more points: each point after the first takes the opposite of the
      previous label; the fallback for an empty list cannot be reached. */
  method Label(raw: seq<RawPoint>) returns (classified: seq<ZigZagPoint>)
    requires |raw| >= 2
    ensures classified == Alternating(raw, raw[0].price > raw[1].price)
  {
    var firstPointIsHigh := raw[0].price > raw[1].price;
    classified := [];
    var i := 0;
    while i < |raw|
      invariant 0 <= i <= |raw| && |classified| == i
      invariant forall j :: 0 <= j < i ==>
                  classified[j] == ZigZagPoint(raw[j].price, raw[j].time, raw[j].index,
                                               if j % 2 == 0 then firstPointIsHigh else !firstPointIsHigh)
    {
      var isCurrentPointHigh: bool;
      if i == 0 {
        isCurrentPointHigh := firstPointIsHigh;
      } else if |classified| > 0 {
        isCurrentPointHigh := !classified[|classified| - 1].isHigh;
      } else {
        assert false;
        isCurrentPointHigh := false;
      }
      classified := classified + [ZigZagPoint(raw[i].price, raw[i].time, raw[i].index, isCurrentPointHigh)];
      i := i + 1;
    }
  }

  lemma CutoffUnique(bars: seq<Bar>, beforeTime: int, n: int, c: int)
    requires 0 <= n <= |bars| && -1 <= c < n
    requires c >= 0 ==> bars[c].openTime <= beforeTime
    requires forall j :: c < j < n ==> bars[j].openTime > beforeTime
    ensures c == CutoffIndex(bars, beforeTime, n)
  {
  }

  /** No bar opens at or before the cutoff: no points. */
  lemma NoBarNoPoints(result: seq<Option<real>>, bars: seq<Bar>, beforeTime: int, pipSize: real)
    requires forall j :: 0 <= j < |bars| ==> bars[j].openTime > beforeTime
    ensures ClassifiedPoints(result, bars, beforeTime, pipSize) == []
  {
    CutoffUnique(bars, beforeTime, |bars|, -1);
  }

  /** With two or more points, they are the turning points of the output up to the cutoff bar, oldest
      first, each with its bar's value and open time. */
  lemma ClassifiedSound(result: seq<Option<real>>, bars: seq<Bar>, beforeTime: int, pipSize: real)
    requires |ClassifiedPoints(result, bars, beforeTime, pipSize)| >= 2
    ensures var c := CutoffIndex(bars, beforeTime, |bars|);
            var pts := ClassifiedPoints(result, bars, beforeTime, pipSize);
            0 <= c < |result| &&
            (forall j :: 0 <= j < |pts| ==>
               0 <= pts[j].index <= c && IsPivotValue(result[pts[j].index]) &&
               pts[j].price == result[pts[j].index].value && pts[j].time == bars[pts[j].index].openTime) &&
            (forall j, m :: 0 <= j < m < |pts| ==> pts[j].index < pts[m].index)
  {
    var c := CutoffIndex(bars, beforeTime, |bars|);
    var raw := RawPoints(result, bars, beforeTime);
    ClassifyShape(raw, bars, pipSize);
    assert 0 <= c < |result|;
    RawFromSound(result, bars, 0, c + 1);
    RawFromSorted(result, bars, 0, c + 1);
  }

  /** With two or more points, no turning point of the output up to the cutoff bar is missing. */
  lemma ClassifiedComplete(result: seq<Option<real>>, bars: seq<Bar>, beforeTime: int, pipSize: real)
    requires |ClassifiedPoints(result, bars, beforeTime, pipSize)| >= 2
    ensures var c := CutoffIndex(bars, beforeTime, |bars|);
            var pts := ClassifiedPoints(result, bars, beforeTime, pipSize);
            0 <= c < |result| &&
            forall i :: 0 <= i <= c && IsPivotValue(result[i]) ==> exists j :: 0 <= j < |pts| && pts[j].index == i
  {
    var c := CutoffIndex(bars, beforeTime, |bars|);
    var raw := RawPoints(result, bars, beforeTime);
    ClassifyShape(raw, bars, pipSize);
    assert 0 <= c < |result| && raw == RawFrom(result, bars, 0, c + 1);
    RawFromComplete(result, bars, 0, c + 1);
    ListsEveryAlternating(raw, result, 0, c + 1, raw[0].price > raw[1].price);
  }

  /** Labelling keeps every listed index. */
  lemma ListsEveryAlternating(raw: seq<RawPoint>, result: seq<Option<real>>, lo: int, hi: int, firstIsHigh: bool)
    requires 0 <= lo && hi <= |result| && ListsEvery(raw, result, lo, hi)
    ensures var pts := Alternating(raw, firstIsHigh);
            forall i :: lo <= i < hi && IsPivotValue(result[i]) ==> exists j :: 0 <= j < |pts| && pts[j].index == i
  {
    var pts := Alternating(raw, firstIsHigh);
    forall i | lo <= i < hi && IsPivotValue(result[i])
      ensures exists j :: 0 <= j < |pts| && pts[j].index == i
    {
      var j :| 0 <= j < |raw| && raw[j].index == i;
      assert pts[j].index == raw[j].index;
    }
  }

  /** With two or more points, the first is a high iff it is above the second, and the labels alternate. */
  lemma ClassifiedAlternate(result: seq<Option<real>>, bars: seq<Bar>, beforeTime: int, pipSize: real)
    requires |ClassifiedPoints(result, bars, beforeTime, pipSize)| >= 2
    ensures var pts := ClassifiedPoints(result, bars, beforeTime, pipSize);
            (pts[0].isHigh <==> pts[0].price > pts[1].price) &&
            (forall j :: 0 < j < |pts| ==> pts[j].isHigh != pts[j - 1].isHigh)
  {
    var raw := RawPoints(result, bars, beforeTime);
    ClassifyShape(raw, bars, pipSize);
  }

  // ---------------------------------------------------------------------------
  // Stop, target and size
  // ---------------------------------------------------------------------------

  /** FirstOrDefault over the labelled points, as written: the oldest point of the kind. */
  function FirstOfKind(pts: seq<ZigZagPoint>, isHigh: bool): (r: Option<ZigZagPoint>)
    ensures r.None? <==> forall j :: 0 <= j < |pts| ==> pts[j].isHigh != isHigh
    ensures r.Some? ==> exists j :: 0 <= j < |pts| && pts[j] == r.value && r.value.isHigh == isHigh &&
                                    forall m :: 0 <= m < j ==> pts[m].isHigh != isHigh
  {
    if |pts| == 0 then None
    else if pts[0].isHigh == isHigh then Some(pts[0])
    else
      var r := FirstOfKind(pts[1..], isHigh);
      assert r.Some? ==> exists j :: 0 <= j < |pts| - 1 && pts[1..][j] == r.value && r.value.isHigh == isHigh &&
                                     forall m :: 0 <= m < j ==> pts[1..][m].isHigh != isHigh;
      r
  }

  /** The most recent point of the kind, which the stop and target placement call for. */
  function LastOfKind(pts: seq<ZigZagPoint>, isHigh: bool): (r: Option<ZigZagPoint>)
    ensures r.None? <==> forall j :: 0 <= j < |pts| ==> pts[j].isHigh != isHigh
    ensures r.Some? ==> exists j :: 0 <= j < |pts| && pts[j] == r.value && r.value.isHigh == isHigh &&
                                    forall m :: j < m < |pts| ==> pts[m].isHigh != isHigh
  {
    if |pts| == 0 then None
    else if pts[|pts| - 1].isHigh == isHigh then Some(pts[|pts| - 1])
    else LastOfKind(pts[..|pts| - 1], isHigh)
  }

  /** On two lows and two highs in time order, FirstOrDefault picks the older low for the stop, not the
      most recent one. */
  lemma FirstOfKindPicksOldest()
    ensures var pts := [ZigZagPoint(1.10, 0, 1, false), ZigZagPoint(1.20, 3600, 2, true),
                        ZigZagPoint(1.15, 7200, 3, false), ZigZagPoint(1.25, 10800, 4, true)];
            FirstOfKind(pts, false) == Some(pts[0]) && LastOfKind(pts, false) == Some(pts[2]) &&
            FirstOfKind(pts, true) == Some(pts[1]) && LastOfKind(pts, true) == Some(pts[3])
  {
    var pts := [ZigZagPoint(1.10, 0, 1, false), ZigZagPoint(1.20, 3600, 2, true),
                ZigZagPoint(1.15, 7200, 3, false), ZigZagPoint(1.25, 10800, 4, true)];
    assert pts[..3][..2] == pts[..2];
    assert pts[1..][1..] == pts[2..];
  }

  /** CalculatePositionSize: lots risking `riskPercentage` % of the balance over the stop, rounded down to
      the volume step; 0 for a non-positive stop or a zero pip value. */
  function PositionSize(stopLossPips: real, balance: real, riskPercentage: real, pipValue: real, volumeStep: real): (r: real)
    requires volumeStep > 0.0
    ensures stopLossPips <= 0.0 || pipValue == 0.0 ==> r == 0.0
    ensures stopLossPips > 0.0 && pipValue != 0.0 ==>
              r <= balance * (riskPercentage / 100.0) / (stopLossPips * pipValue) < r + volumeStep
    ensures OnStep(r, volumeStep)
  {
    assert 0.0 == StepMultiple(0, volumeStep);
    if stopLossPips <= 0.0 then 0.0
    else if pipValue == 0.0 then 0.0
    else
      assert stopLossPips * pipValue != 0.0;
      FloorToStep(balance * (riskPercentage / 100.0) / (stopLossPips * pipValue), volumeStep)
  }

  /** For a fixed stop, a larger risk percentage never gives a smaller size. */
  lemma PositionSizeMonotone(stopLossPips: real, balance: real, risk1: real, risk2: real, pipValue: real, volumeStep: real)
    requires volumeStep > 0.0 && stopLossPips > 0.0 && pipValue > 0.0 && balance >= 0.0 && risk1 <= risk2
    ensures PositionSize(stopLossPips, balance, risk1, pipValue, volumeStep) <=
            PositionSize(stopLossPips, balance, risk2, pipValue, volumeStep)
  {
    var d := stopLossPips * pipValue;
    MulBelow(0.0, stopLossPips, pipValue);
    MulBelow(risk1 / 100.0, risk2 / 100.0, 1.0 / d);
    MulBelow(risk1 / 100.0 / d, risk2 / 100.0 / d, balance + 1.0);
    assert balance * (risk1 / 100.0) / d == balance * (risk1 / 100.0 / d);
    assert balance * (risk2 / 100.0) / d == balance * (risk2 / 100.0 / d);
    if balance > 0.0 {
      MulBelow(risk1 / 100.0 / d, risk2 / 100.0 / d, balance);
    }
    FloorToStepMonotone(balance * (risk1 / 100.0) / d, balance * (risk2 / 100.0) / d, volumeStep);
  }

  /** The symbol and account values ExecuteTrade reads. */
  datatype SymbolInfo = SymbolInfo(ask: real, bid: real, pipSize: real, pipValue: real, lotSize: real,
                                   volumeStep: real, balance: real)

  /** What the host guarantees of a tradable symbol. */
  predicate ValidSymbol(m: SymbolInfo)
  {
    m.pipSize > 0.0 && m.lotSize > 0.0 && m.volumeStep > 0.0
  }

  /** The user's trade settings. */
  datatype Settings = Settings(riskPercentage: real, stopLossBufferPips: real, minStopLossPips: real,
                               minTakeProfitPips: real)

  /** The order for the checked stop and target distances, sized by PositionSize and converted from lots
      to units; none when the size is not positive. */
  function SizedOrder(direction: TradeType, stopLossInPips: real, takeProfitInPips: real, m: SymbolInfo,
                      cfg: Settings): (r: Option<Order>)
    requires ValidSymbol(m)
    ensures var lots := PositionSize(stopLossInPips, m.balance, cfg.riskPercentage, m.pipValue, m.volumeStep);
            (r.Some? <==> lots > 0.0) &&
            (r.Some? ==> r.value.volume == lots * m.lotSize > 0.0 && r.value.direction == direction &&
                         r.value.stopLossPips == stopLossInPips && r.value.takeProfitPips == takeProfitInPips)
  {
    var lots := PositionSize(stopLossInPips, m.balance, cfg.riskPercentage, m.pipValue, m.volumeStep);
    if lots <= 0.0 then None
    else
      MulBelow(0.0, lots, m.lotSize);
      Some(Order(direction, lots * m.lotSize, stopLossInPips, takeProfitInPips))
  }

  /** Every check of the buy half passes: there are a classified low and high; the stop (the buffer below
      the low) is below the ask and the target (the high) above it; both distances meet their minimum; the
      size for the stop is positive. */
  predicate BuyPlaced(pts: seq<ZigZagPoint>, m: SymbolInfo, cfg: Settings)
    requires ValidSymbol(m)
  {
    LastOfKind(pts, false).Some? && LastOfKind(pts, true).Some? &&
    var stopLevel := LastOfKind(pts, false).value.price - FromPips(cfg.stopLossBufferPips, m.pipSize);
    var target := LastOfKind(pts, true).value.price;
    stopLevel < m.ask < target &&
    ToPips(m.ask - stopLevel, m.pipSize) >= cfg.minStopLossPips &&
    ToPips(target - m.ask, m.pipSize) >= cfg.minTakeProfitPips &&
    PositionSize(ToPips(m.ask - stopLevel, m.pipSize), m.balance, cfg.riskPercentage, m.pipValue, m.volumeStep) > 0.0
  }

  /** Every check of the sell half passes, the mirror of BuyPlaced from the bid. */
  predicate SellPlaced(pts: seq<ZigZagPoint>, m: SymbolInfo, cfg: Settings)
    requires ValidSymbol(m)
  {
    LastOfKind(pts, true).Some? && LastOfKind(pts, false).Some? &&
    var stopLevel := LastOfKind(pts, true).value.price + FromPips(cfg.stopLossBufferPips, m.pipSize);
    var target := LastOfKind(pts, false).value.price;
    target < m.bid < stopLevel &&
    ToPips(stopLevel - m.bid, m.pipSize) >= cfg.minStopLossPips &&
    ToPips(m.bid - target, m.pipSize) >= cfg.minTakeProfitPips &&
    PositionSize(ToPips(stopLevel - m.bid, m.pipSize), m.balance, cfg.riskPercentage, m.pipValue, m.volumeStep) > 0.0
  }

  /** The buy half of ExecuteTrade: the stop sits the buffer below the most recent classified low, the
      target at the most recent classified high, which must be above the ask; the order is dropped when the
      stop distance is under the minimum or the ask is not above the stop, or the target distance is under
      the minimum. */
  function PlanBuy(pts: seq<ZigZagPoint>, m: SymbolInfo, cfg: Settings): (r: Option<Order>)
    requires ValidSymbol(m)
    ensures r.Some? <==> BuyPlaced(pts, m, cfg)
    ensures r.Some? ==> r.value.direction == Buy &&
                        r.value.stopLossPips >= cfg.minStopLossPips && r.value.takeProfitPips >= cfg.minTakeProfitPips &&
                        r.value.volume ==
                          PositionSize(r.value.stopLossPips, m.balance, cfg.riskPercentage, m.pipValue, m.volumeStep) * m.lotSize
  {
    var swingLow := LastOfKind(pts, false);
    if swingLow.None? then None
    else
      var stopLossLevel := swingLow.value.price - FromPips(cfg.stopLossBufferPips, m.pipSize);
      var swingHigh := LastOfKind(pts, true);
      if swingHigh.None? || swingHigh.value.price <= m.ask then None
      else
        var stopLossInPips := ToPips(m.ask - stopLossLevel, m.pipSize);
        var takeProfitInPips := ToPips(swingHigh.value.price - m.ask, m.pipSize);
        if stopLossInPips < cfg.minStopLossPips || m.ask <= stopLossLevel then None
        else if takeProfitInPips < cfg.minTakeProfitPips then None
        else SizedOrder(Buy, stopLossInPips, takeProfitInPips, m, cfg)
  }

  /** The sell half of ExecuteTrade, the mirror of PlanBuy from the bid. */
  function PlanSell(pts: seq<ZigZagPoint>, m: SymbolInfo, cfg: Settings): (r: Option<Order>)
    requires ValidSymbol(m)
    ensures r.Some? <==> SellPlaced(pts, m, cfg)
    ensures r.Some? ==> r.value.direction == Sell &&
                        r.value.stopLossPips >= cfg.minStopLossPips && r.value.takeProfitPips >= cfg.minTakeProfitPips &&
                        r.value.volume ==
                          PositionSize(r.value.stopLossPips, m.balance, cfg.riskPercentage, m.pipValue, m.volumeStep) * m.lotSize
  {
    var swingHigh := LastOfKind(pts, true);
    if swingHigh.None? then None
    else
      var stopLossLevel := swingHigh.value.price + FromPips(cfg.stopLossBufferPips, m.pipSize);
      var swingLow := LastOfKind(pts, false);
      if swingLow.None? || swingLow.value.price >= m.bid then None
      else
        var stopLossInPips := ToPips(stopLossLevel - m.bid, m.pipSize);
        var takeProfitInPips := ToPips(m.bid - swingLow.value.price, m.pipSize);
        if stopLossInPips < cfg.minStopLossPips || m.bid >= stopLossLevel then None
        else if takeProfitInPips < cfg.minTakeProfitPips then None
        else SizedOrder(Sell, stopLossInPips, takeProfitInPips, m, cfg)
  }

  /** ExecuteTrade's order in the signalled direction. */
  function PlanTrade(direction: TradeType, pts: seq<ZigZagPoint>, m: SymbolInfo, cfg: Settings): (r: Option<Order>)
    requires ValidSymbol(m)
    ensures r.Some? <==> if direction == Buy then BuyPlaced(pts, m, cfg) else SellPlaced(pts, m, cfg)
    ensures r.Some? ==> r.value.direction == direction && r.value.volume > 0.0 &&
                        r.value.stopLossPips >= cfg.minStopLossPips && r.value.takeProfitPips >= cfg.minTakeProfitPips
  {
    if direction == Buy then PlanBuy(pts, m, cfg) else PlanSell(pts, m, cfg)
  }

  /** A planned buy is placed between its levels: the stop is the buffer below the most recent low and
      below the ask, the target is the most recent high and above the ask, and the pip distances measure
      exactly those gaps. */
  lemma PlanBuyLevels(pts: seq<ZigZagPoint>, m: SymbolInfo, cfg: Settings)
    requires ValidSymbol(m) && PlanBuy(pts, m, cfg).Some?
    ensures LastOfKind(pts, false).Some? && LastOfKind(pts, true).Some?
    ensures var o := PlanBuy(pts, m, cfg).value;
            var stopLevel := LastOfKind(pts, false).value.price - FromPips(cfg.stopLossBufferPips, m.pipSize);
            var target := LastOfKind(pts, true).value.price;
            stopLevel < m.ask < target &&
            FromPips(o.stopLossPips, m.pipSize) == m.ask - stopLevel && FromPips(o.takeProfitPips, m.pipSize) == target - m.ask
  {
    var stopLevel := LastOfKind(pts, false).value.price - FromPips(cfg.stopLossBufferPips, m.pipSize);
    var target := LastOfKind(pts, true).value.price;
    PipsRoundTrip(m.ask - stopLevel, m.pipSize);
    PipsRoundTrip(target - m.ask, m.pipSize);
  }

  /** A planned sell, the mirror from the bid: the stop is the buffer above the most recent high, the
      target the most recent low. */
  lemma PlanSellLevels(pts: seq<ZigZagPoint>, m: SymbolInfo, cfg: Settings)
    requires ValidSymbol(m) && PlanSell(pts, m, cfg).Some?
    ensures LastOfKind(pts, true).Some? && LastOfKind(pts, false).Some?
    ensures var o := PlanSell(pts, m, cfg).value;
            var stopLevel := LastOfKind(pts, true).value.price + FromPips(cfg.stopLossBufferPips, m.pipSize);
            var target := LastOfKind(pts, false).value.price;
            target < m.bid < stopLevel &&
            FromPips(o.stopLossPips, m.pipSize) == stopLevel - m.bid && FromPips(o.takeProfitPips, m.pipSize) == m.bid - target
  {
    var stopLevel := LastOfKind(pts, true).value.price + FromPips(cfg.stopLossBufferPips, m.pipSize);
    var target := LastOfKind(pts, false).value.price;
    PipsRoundTrip(stopLevel - m.bid, m.pipSize);
    PipsRoundTrip(m.bid - target, m.pipSize);
  }

  // ---------------------------------------------------------------------------
  // The robot
  // ---------------------------------------------------------------------------

  /** The robot's state between bars: the trend, the four structure points, the once-a-day gate and the
      break-of-structure signal. The hourly ZigZag output, the bars, the symbol, the server day and whether
      the host filled the order are passed in. */
  class MarketStructureBot {
    const riskPercentage: real
    const structureDepth: nat
    const stopLossBufferPips: real
    const minStopLossPips: real
    const minTakeProfitPips: real

    var currentTrend: MarketTrend
    var lastHH: Option<ZigZagPoint>
    var lastHL: Option<ZigZagPoint>
    var lastLH: Option<ZigZagPoint>
    var lastLL: Option<ZigZagPoint>
    var tradeExecutedToday: bool
    var lastTradeDate: Option<int>
    var bosOccurredThisBar: bool
    var bosTradeDirection: TradeType
    var bosSLPriceLevel: real

    /** The fields the structure tracker reads and writes. */
    ghost function State(): Tracker
      reads this
    {
      Tracker(currentTrend, lastHH, lastHL, lastLH, lastLL, bosOccurredThisBar, bosTradeDirection, bosSLPriceLevel)
    }

    function Config(): Settings
    {
      Settings(riskPercentage, stopLossBufferPips, minStopLossPips, minTakeProfitPips)
    }

    constructor(riskPercentage: real, structureDepth: nat, stopLossBufferPips: real, minStopLossPips: real,
                minTakeProfitPips: real)
      ensures Config() == Settings(riskPercentage, stopLossBufferPips, minStopLossPips, minTakeProfitPips)
      ensures this.structureDepth == structureDepth
      ensures State() == Tracker(NoTrend, None, None, None, None, false, Buy, 0.0)
      ensures !tradeExecutedToday && lastTradeDate.None?
    {
      this.riskPercentage := riskPercentage;
      this.structureDepth := structureDepth;
      this.stopLossBufferPips := stopLossBufferPips;
      this.minStopLossPips := minStopLossPips;
      this.minTakeProfitPips := minTakeProfitPips;
      currentTrend := NoTrend;
      lastHH, lastHL, lastLH, lastLL := None, None, None, None;
      tradeExecutedToday := false;
      lastTradeDate := None;
      bosOccurredThisBar := false;
      bosTradeDirection := Buy;
      bosSLPriceLevel := 0.0;
    }

    /** OnBar: recompute the once-a-day gate for `today`, clear the signal, update the structure on `bars`,
        and trade a break of structure unless a trade was already filled today. */
    method OnBar(bars: seq<Bar>, h1Result: seq<Option<real>>, h1Bars: seq<Bar>, m: SymbolInfo, today: int,
                 filled: bool) returns (order: Option<Order>)
      requires ValidSymbol(m)
      modifies this
      ensures var r := Identify(old(State()).(bos := false), bars, structureDepth);
              var blocked := old(lastTradeDate) == Some(today);
              State() == r.(bos := r.bos && blocked) &&
              order == (if r.bos && !blocked
                        then PlanTrade(r.bosDirection, ClassifiedPoints(h1Result, h1Bars, bars[|bars| - 1].openTime, m.pipSize), m, Config())
                        else None) &&
              lastTradeDate == (if order.Some? && filled then Some(today) else old(lastTradeDate)) &&
              tradeExecutedToday == (blocked || (order.Some? && filled))
      ensures order.Some? ==> old(lastTradeDate) != Some(today)
    {
      tradeExecutedToday := lastTradeDate == Some(today);
      bosOccurredThisBar := false;
      IdentifyMarketStructure(bars);
      order := None;
      if !tradeExecutedToday && bosOccurredThisBar {
        order := ExecuteTrade(bars, h1Result, h1Bars, m, today, filled);
      }
    }

    /** IdentifyMarketStructure: the swing tests at `depth` bars back, then the trend step on the last bar. */
    method IdentifyMarketStructure(bars: seq<Bar>)
      modifies this`currentTrend, this`lastHH, this`lastHL, this`lastLH, this`lastLL, this`bosOccurredThisBar,
               this`bosTradeDirection, this`bosSLPriceLevel
      ensures State() == Identify(old(State()), bars, structureDepth)
    {
      var currentIndex := |bars| - 1;
      if !SwingWindowReady(currentIndex, structureDepth) {
        return;
      }
      DetectSwings(bars);
      var close := bars[currentIndex].close;
      if currentTrend == NoTrend {
        StartTrend();
      } else if currentTrend == Uptrend {
        if lastHL.Some? && lastHH.Some? && close < lastHL.value.price {
          BreakUptrend(bars);
        }
      } else {
        if lastLH.Some? && lastLL.Some? && close > lastLH.value.price {
          BreakDowntrend(bars);
        }
      }
    }

    /** The swing-high and swing-low tests at bar `|bars| - 1 - depth`. */
    method DetectSwings(bars: seq<Bar>)
      requires SwingWindowReady(|bars| - 1, structureDepth)
      modifies this`lastHH, this`lastLL
      ensures State() == Swings(old(State()), bars, structureDepth)
    {
      var indexToCheck := |bars| - 1 - structureDepth;
      var isSwingHigh := SwingHighAt(bars, indexToCheck, structureDepth);
      if isSwingHigh && (lastHH.None? || lastHH.value.price != bars[indexToCheck].high || lastHH.value.index != indexToCheck) {
        lastHH := Some(HighPoint(bars, indexToCheck));
      }
      var isSwingLow := SwingLowAt(bars, indexToCheck, structureDepth);
      if isSwingLow && (lastLL.None? || lastLL.value.price != bars[indexToCheck].low || lastLL.value.index != indexToCheck) {
        lastLL := Some(LowPoint(bars, indexToCheck));
      }
    }

    /** The first trend from the stored swing high and low. */
    method StartTrend()
      requires currentTrend == NoTrend
      modifies this`currentTrend, this`lastHL, this`lastLH
      ensures forall bars: seq<Bar> | |bars| > 0 :: State() == Transition(old(State()), bars)
    {
      if lastHL.None? && lastLL.Some? && lastHH.Some? && lastLL.value.index < lastHH.value.index &&
         lastHH.value.price > lastLL.value.price {
        lastHL := lastLL;
        currentTrend := Uptrend;
      } else if lastLH.None? && lastHH.Some? && lastLL.Some? && lastHH.value.index < lastLL.value.index &&
                lastLL.value.price < lastHH.value.price {
        lastLH := lastHH;
        currentTrend := Downtrend;
      }
    }

    /** A close below the higher low: sell signal, the higher high becomes the lower high, and the current
        bar's low the lower low. The lookback for a lower low runs only when the new lower low shares the
        higher high's bar, and then it can only examine bars after that bar, of which there are none. */
    method BreakUptrend(bars: seq<Bar>)
      requires |bars| > 0 && lastHH.Some?
      modifies this`currentTrend, this`lastHH, this`lastHL, this`lastLH, this`lastLL, this`bosOccurredThisBar,
               this`bosTradeDirection, this`bosSLPriceLevel
      ensures State() == BreakDown(old(State()), bars)
    {
      var currentIndex := |bars| - 1;
      bosOccurredThisBar := true;
      bosTradeDirection := Sell;
      bosSLPriceLevel := lastHH.value.price;
      lastLH := lastHH;
      lastLL := Some(LowPoint(bars, currentIndex));
      if lastLL.value.index == lastHH.value.index {
        var lookBackRange := if currentIndex < 10 then currentIndex else 10;
        var newLowerHighIndex := lastLH.value.index;
        var subsequentLow := LowestLowAfter(bars, currentIndex, lookBackRange, newLowerHighIndex);
        if subsequentLow != currentIndex && subsequentLow > newLowerHighIndex {
          // the replacement of the lower low by the bar found cannot happen
          assert false;
        }
      }
      currentTrend := Downtrend;
      lastHH := None;
      lastHL := None;
    }

    /** A close above the lower high, the mirror of BreakUptrend. */
    method BreakDowntrend(bars: seq<Bar>)
      requires |bars| > 0 && lastLL.Some?
      modifies this`currentTrend, this`lastHH, this`lastHL, this`lastLH, this`lastLL, this`bosOccurredThisBar,
               this`bosTradeDirection, this`bosSLPriceLevel
      ensures State() == BreakUp(old(State()), bars)
    {
      var currentIndex := |bars| - 1;
      bosOccurredThisBar := true;
      bosTradeDirection := Buy;
      bosSLPriceLevel := lastLL.value.price;
      lastHL := lastLL;
      lastHH := Some(HighPoint(bars, currentIndex));
      if lastHH.value.index == lastLL.value.index {
        var lookBackRangeMax := if currentIndex < 10 then currentIndex else 10;
        var newHigherLowIndex := lastHL.value.index;
        var subsequentHigh := HighestHighAfter(bars, currentIndex, lookBackRangeMax, newHigherLowIndex);
        if subsequentHigh != currentIndex && subsequentHigh > newHigherLowIndex {
          // the replacement of the higher high by the bar found cannot happen
          assert false;
        }
      }
      currentTrend := Uptrend;
      lastLH := None;
      lastLL := None;
    }

    /** ExecuteTrade: when a break was signalled, plan the order from the hourly points up to the current
        bar's open time; a filled order records today. The signal is consumed on every path. */
    method ExecuteTrade(bars: seq<Bar>, h1Result: seq<Option<real>>, h1Bars: seq<Bar>, m: SymbolInfo, today: int,
                        filled: bool) returns (order: Option<Order>)
      requires ValidSymbol(m) && |bars| > 0
      modifies this`bosOccurredThisBar, this`lastTradeDate, this`tradeExecutedToday
      ensures order == (if old(bosOccurredThisBar)
                        then PlanTrade(bosTradeDirection, ClassifiedPoints(h1Result, h1Bars, bars[|bars| - 1].openTime, m.pipSize), m, Config())
                        else None)
      ensures !bosOccurredThisBar
      ensures lastTradeDate == (if order.Some? && filled then Some(today) else old(lastTradeDate))
      ensures tradeExecutedToday == (old(tradeExecutedToday) || (order.Some? && filled))
    {
      order := None;
      if !bosOccurredThisBar {
        return;
      }
      var currentTimeOnChartTF := bars[|bars| - 1].openTime;
      var points := GetClassifiedZigZagPoints(h1Result, h1Bars, currentTimeOnChartTF, m.pipSize);
      order := PlanTrade(bosTradeDirection, points, m, Config());
      if order.Some? && filled {
        lastTradeDate := Some(today);
        tradeExecutedToday := true;
      }
      bosOccurredThisBar := false;
    }
  }
}
