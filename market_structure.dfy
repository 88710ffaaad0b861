/** The pivot / structure / break-of-structure engine of the CryptoBot strategy
    (class MarketStructure in bot.cs) and the bot's per-bar trade gate. */
module MarketStructureEngine {
  import opened Common

  datatype SwingType = High | Low

  datatype SwingPoint = SwingPoint(index: int, price: real, kind: SwingType)

  datatype BosEvent = BosEvent(level: real, startIndex: int, endIndex: int, confirmed: bool, bullish: bool)

  function Opposite(t: SwingType): SwingType
  {
    if t == High then Low else High
  }

  // ---------------------------------------------------------------------------
  // Pivot tests
  // ---------------------------------------------------------------------------

  /** Bar `i` is a swing high: its high is at least every high within `period` bars on either side (ties allowed). */
  predicate IsHighPivot(bars: seq<Bar>, i: int, period: nat)
    requires period <= i && i + period < |bars|
  {
    forall j :: i - period <= j <= i + period ==> bars[j].high <= bars[i].high
  }

  /** Bar `i` is a swing low: its low is at most every low within `period` bars on either side (ties allowed). */
  predicate IsLowPivot(bars: seq<Bar>, i: int, period: nat)
    requires period <= i && i + period < |bars|
  {
    forall j :: i - period <= j <= i + period ==> bars[i].low <= bars[j].low
  }

  /** The pivot the scan records at bar `i`: the High test is tried first, so a bar is never both. */
  function PivotAt(bars: seq<Bar>, i: int, period: nat): seq<SwingPoint>
    requires period <= i && i + period < |bars|
  {
    if IsHighPivot(bars, i, period) then [SwingPoint(i, bars[i].high, High)]
    else if IsLowPivot(bars, i, period) then [SwingPoint(i, bars[i].low, Low)]
    else []
  }

  /** The pivots found at bars period .. hi-1, in scanning order. */
  function ScanPivots(bars: seq<Bar>, period: nat, hi: int): seq<SwingPoint>
    requires period <= hi && (hi == period || hi + period <= |bars|)
    decreases hi - period
  {
    if hi == period then [] else ScanPivots(bars, period, hi - 1) + PivotAt(bars, hi - 1, period)
  }

  /** All pivots of a full rescan: only bars with `period` bars of context on both sides are examined. */
  function Pivots(bars: seq<Bar>, period: nat): seq<SwingPoint>
  {
    if period < |bars| - period then ScanPivots(bars, period, |bars| - period) else []
  }

  lemma {:induction false} ScanPivotsShape(bars: seq<Bar>, period: nat, hi: int)
    requires period <= hi && (hi == period || hi + period <= |bars|)
    ensures StrictlyIncreasing(ScanPivots(bars, period, hi))
    ensures forall q :: q in ScanPivots(bars, period, hi) ==>
              period <= q.index < hi && q.index + period < |bars| &&
              (q.kind == High <==> IsHighPivot(bars, q.index, period)) &&
              (q.kind == Low ==> IsLowPivot(bars, q.index, period)) &&
              q.price == (if q.kind == High then bars[q.index].high else bars[q.index].low)
    decreases hi - period
  {
    if hi > period {
      ScanPivotsShape(bars, period, hi - 1);
    }
  }

  /** Every bar in the scanned range whose pivot test holds is recorded, with its type and price. */
  lemma {:induction false} ScanPivotsComplete(bars: seq<Bar>, period: nat, hi: int, i: int)
    requires period <= hi && (hi == period || hi + period <= |bars|)
    requires period <= i < hi
    ensures IsHighPivot(bars, i, period) ==> SwingPoint(i, bars[i].high, High) in ScanPivots(bars, period, hi)
    ensures !IsHighPivot(bars, i, period) && IsLowPivot(bars, i, period) ==>
              SwingPoint(i, bars[i].low, Low) in ScanPivots(bars, period, hi)
    decreases hi - period
  {
    if i < hi - 1 {
      ScanPivotsComplete(bars, period, hi - 1, i);
    }
  }

  // ---------------------------------------------------------------------------
  // The pivot list: sorted by index, one entry per (type, index) key
  // ---------------------------------------------------------------------------

  predicate SortedByIndex(ps: seq<SwingPoint>)
  {
    forall a, b :: 0 <= a < b < |ps| ==> ps[a].index <= ps[b].index
  }

  predicate StrictlyIncreasing(ps: seq<SwingPoint>)
  {
    forall a, b :: 0 <= a < b < |ps| ==> ps[a].index < ps[b].index
  }

  /** The key AddPivot stores in `_processedPivots`: the type letter and the bar index. */
  function Key(p: SwingPoint): (SwingType, int)
  {
    (p.kind, p.index)
  }

  function Keys(ps: seq<SwingPoint>): set<(SwingType, int)>
  {
    set p | p in ps :: Key(p)
  }

  predicate UniqueKeys(ps: seq<SwingPoint>)
  {
    forall a, b :: 0 <= a < b < |ps| ==> Key(ps[a]) != Key(ps[b])
  }

  /** The list after `Add` followed by a sort on `Index`: `p` goes after every entry whose index is not above its own. */
  function InsertByIndex(ps: seq<SwingPoint>, p: SwingPoint): (r: seq<SwingPoint>)
    requires SortedByIndex(ps)
    ensures SortedByIndex(r)
    ensures |r| == |ps| + 1
    ensures forall q :: q in r <==> q in ps || q == p
    ensures (forall q :: q in ps ==> q.index <= p.index) ==> r == ps + [p]
  {
    if ps == [] || ps[|ps| - 1].index <= p.index then
      ps + [p]
    else
      var front := ps[..|ps| - 1];
      var last := ps[|ps| - 1];
      assert ps == front + [last];
      var mid := InsertByIndex(front, p);
      assert forall q :: q in mid ==> q.index <= last.index;
      mid + [last]
  }

  /** The sorted insertion is a permutation of the old list plus the new point. */
  lemma {:induction false} InsertByIndexPermutes(ps: seq<SwingPoint>, p: SwingPoint)
    requires SortedByIndex(ps)
    ensures multiset(InsertByIndex(ps, p)) == multiset(ps) + multiset{p}
  {
    if ps == [] || ps[|ps| - 1].index <= p.index {
    } else {
      var front := ps[..|ps| - 1];
      assert ps == front + [ps[|ps| - 1]];
      InsertByIndexPermutes(front, p);
    }
  }

  /** A point whose key is new keeps the keys unique, and adds exactly its key. */
  lemma InsertByIndexKeys(ps: seq<SwingPoint>, p: SwingPoint)
    requires SortedByIndex(ps) && UniqueKeys(ps) && Key(p) !in Keys(ps)
    ensures UniqueKeys(InsertByIndex(ps, p))
    ensures Keys(InsertByIndex(ps, p)) == Keys(ps) + {Key(p)}
  {
    InsertByIndexUnique(ps, p);
    var r := InsertByIndex(ps, p);
    assert forall k :: k in Keys(r) ==> k in Keys(ps) + {Key(p)};
  }

  lemma {:induction false} InsertByIndexUnique(ps: seq<SwingPoint>, p: SwingPoint)
    requires SortedByIndex(ps) && UniqueKeys(ps) && Key(p) !in Keys(ps)
    ensures UniqueKeys(InsertByIndex(ps, p))
  {
    if ps == [] || ps[|ps| - 1].index <= p.index {
      var r := ps + [p];
      forall a, b | 0 <= a < b < |r| ensures Key(r[a]) != Key(r[b]) {
        if b == |r| - 1 {
          assert r[a] in ps;
        }
      }
    } else {
      var front := ps[..|ps| - 1];
      var last := ps[|ps| - 1];
      assert ps == front + [last];
      assert Keys(front) <= Keys(ps);
      InsertByIndexUnique(front, p);
      var mid := InsertByIndex(front, p);
      assert Key(last) !in Keys(front);
      assert Key(last) !in Keys(mid);
      var r := mid + [last];
      forall a, b | 0 <= a < b < |r| ensures Key(r[a]) != Key(r[b]) {
        if b == |r| - 1 {
          assert r[a] in mid;
        }
      }
    }
  }

  // ---------------------------------------------------------------------------
  // Structure: the alternating High/Low backbone
  // ---------------------------------------------------------------------------

  /** `a` is at least as extreme as `b`, which has the same type. */
  predicate Dominates(a: SwingPoint, b: SwingPoint)
  {
    a.kind == b.kind && (if a.kind == High then a.price >= b.price else a.price <= b.price)
  }

  /** A later pivot of the same type replaces the retained one only when strictly more extreme. */
  predicate MoreExtreme(p: SwingPoint, last: SwingPoint)
  {
    (p.kind == High && p.price > last.price) || (p.kind == Low && p.price < last.price)
  }

  /** One step of BuildStructure: append a point of the other type, replace the last point by a
      strictly more extreme one of the same type, otherwise discard. */
  function Absorb(sp: seq<SwingPoint>, p: SwingPoint): seq<SwingPoint>
  {
    if sp == [] then [p]
    else if p.kind != sp[|sp| - 1].kind then sp + [p]
    else if MoreExtreme(p, sp[|sp| - 1]) then sp[|sp| - 1 := p]
    else sp
  }

  /** The structure sequence built from the pivots in order. */
  function Fold(ps: seq<SwingPoint>): seq<SwingPoint>
  {
    if ps == [] then [] else Absorb(Fold(ps[..|ps| - 1]), ps[|ps| - 1])
  }

  predicate Alternating(sp: seq<SwingPoint>)
  {
    forall k :: 0 <= k < |sp| - 1 ==> sp[k].kind != sp[k + 1].kind
  }

  /** The structure is empty exactly when there are no pivots, alternates strictly,
      and holds only points taken from the pivot list. */
  lemma {:induction false} FoldShape(ps: seq<SwingPoint>)
    ensures Fold(ps) == [] <==> ps == []
    ensures |Fold(ps)| <= |ps|
    ensures Alternating(Fold(ps))
    ensures forall q :: q in Fold(ps) ==> q in ps
  {
    if ps != [] {
      FoldShape(ps[..|ps| - 1]);
      var sp := Fold(ps[..|ps| - 1]);
      assert forall q :: q in ps[..|ps| - 1] ==> q in ps;
    }
  }

  /** With strictly increasing pivot indices, the structure's indices increase strictly too. */
  lemma {:induction false} FoldIncreasing(ps: seq<SwingPoint>)
    requires StrictlyIncreasing(ps)
    ensures StrictlyIncreasing(Fold(ps))
  {
    if ps != [] {
      var front := ps[..|ps| - 1];
      var p := ps[|ps| - 1];
      FoldIncreasing(front);
      FoldShape(front);
      var sp := Fold(front);
      forall q | q in sp ensures q.index < p.index {
        var j :| 0 <= j < |front| && front[j] == q;
      }
    }
  }

  /** Raw pivot `q` falls into the run of structure position `k`: same type, and strictly between
      the neighbouring structure points. */
  predicate AbsorbedInto(sp: seq<SwingPoint>, k: int, q: SwingPoint)
  {
    0 <= k < |sp| && sp[k].kind == q.kind &&
    (k == 0 || sp[k - 1].index < q.index) &&
    (k == |sp| - 1 || q.index < sp[k + 1].index)
  }

  /** Every pivot is dominated by the structure point of its run, and every pivot after the last
      structure point is dominated by that point. */
  ghost predicate Extreme(ps: seq<SwingPoint>, sp: seq<SwingPoint>)
  {
    (forall q, k :: q in ps && AbsorbedInto(sp, k, q) ==> Dominates(sp[k], q)) &&
    (sp != [] ==> forall q :: q in ps && q.index > sp[|sp| - 1].index ==> Dominates(sp[|sp| - 1], q))
  }

  /** One fold step keeps the structure extreme over the pivots seen so far. */
  lemma AbsorbExtreme(front: seq<SwingPoint>, sp: seq<SwingPoint>, p: SwingPoint)
    requires StrictlyIncreasing(front) && forall q :: q in front ==> q.index < p.index
    requires Alternating(sp) && (sp == [] <==> front == []) && (forall q :: q in sp ==> q in front)
    requires Extreme(front, sp)
    ensures Extreme(front + [p], Absorb(sp, p))
  {
    var ps := front + [p];
    var sp' := Absorb(sp, p);
    if sp == [] {
      assert ps == [p];
    } else if p.kind != sp[|sp| - 1].kind {
      AppendExtreme(front, sp, p);
    } else if MoreExtreme(p, sp[|sp| - 1]) {
      ReplaceExtreme(front, sp, p);
    } else {
      DiscardExtreme(front, sp, p);
    }
  }

  lemma DiscardExtreme(front: seq<SwingPoint>, sp: seq<SwingPoint>, p: SwingPoint)
    requires forall q :: q in front ==> q.index < p.index
    requires sp != [] && p.kind == sp[|sp| - 1].kind && !MoreExtreme(p, sp[|sp| - 1])
    requires forall q :: q in sp ==> q in front
    requires Extreme(front, sp)
    ensures Extreme(front + [p], sp)
  {
  }

  lemma AppendExtreme(front: seq<SwingPoint>, sp: seq<SwingPoint>, p: SwingPoint)
    requires StrictlyIncreasing(front) && forall q :: q in front ==> q.index < p.index
    requires sp != [] && p.kind != sp[|sp| - 1].kind && (forall q :: q in sp ==> q in front)
    requires Extreme(front, sp)
    ensures Extreme(front + [p], sp + [p])
  {
    var sp' := sp + [p];
    forall q, k | q in front && AbsorbedInto(sp', k, q) ensures Dominates(sp'[k], q) {
      AfterLastSameKind(front, sp, q);
      assert AbsorbedInto(sp, k, q);
    }
    forall k | AbsorbedInto(sp', k, p) ensures Dominates(sp'[k], p) {
      assert sp'[|sp|] == p;
    }
  }

  /** A pivot after the last structure point has that point's type. */
  lemma AfterLastSameKind(front: seq<SwingPoint>, sp: seq<SwingPoint>, q: SwingPoint)
    requires sp != [] && Extreme(front, sp) && q in front
    ensures q.index > sp[|sp| - 1].index ==> q.kind == sp[|sp| - 1].kind
  {
  }

  lemma ReplaceExtreme(front: seq<SwingPoint>, sp: seq<SwingPoint>, p: SwingPoint)
    requires StrictlyIncreasing(front) && forall q :: q in front ==> q.index < p.index
    requires Alternating(sp) && sp != [] && p.kind == sp[|sp| - 1].kind && MoreExtreme(p, sp[|sp| - 1])
    requires forall q :: q in sp ==> q in front
    requires Extreme(front, sp)
    ensures Extreme(front + [p], sp[|sp| - 1 := p])
  {
    var ps := front + [p];
    var sp' := sp[|sp| - 1 := p];
    var last := sp[|sp| - 1];
    forall q, k | q in ps && AbsorbedInto(sp', k, q) ensures Dominates(sp'[k], q) {
      if q == p {
      } else if k == |sp| - 1 {
        assert AbsorbedInto(sp, k, q);
      } else if k == |sp| - 2 {
        BeforeLastOfOtherKind(front, sp, q);
        assert AbsorbedInto(sp, k, q);
      } else {
        assert AbsorbedInto(sp, k, q);
      }
    }
  }

  /** A pivot of the kind before the last structure point lies before the last structure point. */
  lemma BeforeLastOfOtherKind(front: seq<SwingPoint>, sp: seq<SwingPoint>, q: SwingPoint)
    requires StrictlyIncreasing(front) && Alternating(sp) && |sp| >= 2
    requires (forall x :: x in sp ==> x in front) && Extreme(front, sp)
    requires q in front && q.kind == sp[|sp| - 2].kind
    ensures q.index < sp[|sp| - 1].index
  {
    var last := sp[|sp| - 1];
    SameIndexSamePoint(front, q, last);
  }

  lemma SameIndexSamePoint(ps: seq<SwingPoint>, x: SwingPoint, y: SwingPoint)
    requires StrictlyIncreasing(ps) && x in ps && y in ps
    ensures x.index == y.index ==> x == y
  {
    var a :| 0 <= a < |ps| && ps[a] == x;
    var b :| 0 <= b < |ps| && ps[b] == y;
  }

  /** Extremity of the whole fold: every raw pivot is dominated by the structure point of its run. */
  lemma {:induction false} FoldExtremity(ps: seq<SwingPoint>)
    requires StrictlyIncreasing(ps)
    ensures Extreme(ps, Fold(ps))
  {
    if ps != [] {
      var front := ps[..|ps| - 1];
      var p := ps[|ps| - 1];
      assert ps == front + [p];
      FoldExtremity(front);
      FoldShape(front);
      AbsorbExtreme(front, Fold(front), p);
    }
  }

  // ---------------------------------------------------------------------------
  // Break-of-structure events
  // ---------------------------------------------------------------------------

  /** The confirmed event made by the structure triple ending at position `i`, if any. */
  function TripleBos(sp: seq<SwingPoint>, i: int): seq<BosEvent>
    requires 2 <= i < |sp|
  {
    var prev := sp[i - 2];
    var mid := sp[i - 1];
    var cur := sp[i];
    if cur.kind == High && mid.kind == Low && prev.kind == High then
      if cur.price > prev.price then [BosEvent(prev.price, prev.index, cur.index, true, true)] else []
    else if cur.kind == Low && mid.kind == High && prev.kind == Low then
      if cur.price < prev.price then [BosEvent(prev.price, prev.index, cur.index, true, false)] else []
    else []
  }

  /** Confirmed events of the triples ending at positions 2 .. n-1, in order. */
  function ConfirmedUpTo(sp: seq<SwingPoint>, n: int): seq<BosEvent>
    requires n <= |sp|
    decreases n
  {
    if n <= 2 then [] else ConfirmedUpTo(sp, n - 1) + TripleBos(sp, n - 1)
  }

  function Confirmed(sp: seq<SwingPoint>): seq<BosEvent>
  {
    ConfirmedUpTo(sp, |sp|)
  }

  /** Structure triple (prev, mid, cur) ending at position `i` breaks structure and yields `e`:
      High-Low-High with a higher second High is bullish, Low-High-Low with a lower second Low is bearish;
      the level is the first point's price. */
  predicate BreaksAt(sp: seq<SwingPoint>, i: int, e: BosEvent)
    requires 2 <= i < |sp|
  {
    var prev := sp[i - 2];
    var cur := sp[i];
    e.confirmed && e.level == prev.price && e.startIndex == prev.index && e.endIndex == cur.index &&
    ((e.bullish && prev.kind == High && sp[i - 1].kind == Low && cur.kind == High && cur.price > prev.price) ||
     (!e.bullish && prev.kind == Low && sp[i - 1].kind == High && cur.kind == Low && cur.price < prev.price))
  }

  /** Every confirmed event comes from a breaking triple, and every breaking triple gives an event. */
  lemma {:induction false} ConfirmedProvenance(sp: seq<SwingPoint>, n: int)
    requires n <= |sp|
    ensures forall e :: e in ConfirmedUpTo(sp, n) ==> exists i :: 2 <= i < n && BreaksAt(sp, i, e)
    ensures forall i, e :: 2 <= i < n && BreaksAt(sp, i, e) ==> e in ConfirmedUpTo(sp, n)
    decreases n
  {
    if n > 2 {
      ConfirmedProvenance(sp, n - 1);
      var t := TripleBos(sp, n - 1);
      if |t| == 1 {
        assert BreaksAt(sp, n - 1, t[0]);
      }
      forall i, e | 2 <= i < n && BreaksAt(sp, i, e) ensures e in ConfirmedUpTo(sp, n) {
        if i == n - 1 {
          assert e in TripleBos(sp, n - 1);
        }
      }
    }
  }

  /** Confirmed events are in structure order: on a strictly increasing structure their end indices increase. */
  lemma {:induction false} ConfirmedOrdered(sp: seq<SwingPoint>, n: int)
    requires n <= |sp| && StrictlyIncreasing(sp)
    ensures forall a, b :: 0 <= a < b < |ConfirmedUpTo(sp, n)| ==>
              ConfirmedUpTo(sp, n)[a].endIndex < ConfirmedUpTo(sp, n)[b].endIndex
    ensures forall e :: e in ConfirmedUpTo(sp, n) ==> e.endIndex < (if n > 0 then sp[n - 1].index + 1 else 0)
    decreases n
  {
    if n > 2 {
      ConfirmedOrdered(sp, n - 1);
      var c := ConfirmedUpTo(sp, n - 1);
      forall e | e in c ensures e.endIndex < sp[n - 1].index {
        assert e.endIndex < sp[n - 2].index + 1;
      }
    }
  }

  /** The position of the last structure point of type `t`. */
  function LastIndexOfKind(sp: seq<SwingPoint>, t: SwingType): (r: Option<nat>)
    ensures r.Some? ==> r.value < |sp| && sp[r.value].kind == t &&
                        forall j :: r.value < j < |sp| ==> sp[j].kind != t
    ensures r.None? ==> forall j :: 0 <= j < |sp| ==> sp[j].kind != t
  {
    if sp == [] then None
    else if sp[|sp| - 1].kind == t then Some(|sp| - 1)
    else LastIndexOfKind(sp[..|sp| - 1], t)
  }

  /** The live event: the last close beyond the last structure point of the opposite type
      to the last structure point. */
  function Live(sp: seq<SwingPoint>, bars: seq<Bar>): seq<BosEvent>
    requires |sp| > 1 ==> |bars| > 0
  {
    if |sp| <= 1 then []
    else
      var last := sp[|sp| - 1];
      match LastIndexOfKind(sp, Opposite(last.kind))
      case None => []
      case Some(m) =>
        var major := sp[m];
        var close := bars[|bars| - 1].close;
        var bullish := last.kind == Low && close > major.price;
        var bearish := last.kind == High && close < major.price;
        if bullish || bearish then [BosEvent(major.price, major.index, |bars| - 1, false, bullish)] else []
  }

  /** At most one live event; it needs two structure points, ends at the last bar, is bullish exactly when the
      last point is a Low and the close is above the level; on an alternating structure the level is the
      second-to-last point, and the event is produced whenever the close is beyond it. */
  lemma LiveEvent(sp: seq<SwingPoint>, bars: seq<Bar>)
    requires |sp| > 1 ==> |bars| > 0
    ensures |Live(sp, bars)| <= 1
    ensures |Live(sp, bars)| == 1 ==>
              var e := Live(sp, bars)[0];
              var last := sp[|sp| - 1];
              var close := bars[|bars| - 1].close;
              |sp| >= 2 && !e.confirmed && e.endIndex == |bars| - 1 &&
              (e.bullish <==> last.kind == Low && close > e.level) &&
              (!e.bullish <==> last.kind == High && close < e.level)
    ensures Alternating(sp) && |sp| >= 2 ==>
              var last := sp[|sp| - 1];
              var major := sp[|sp| - 2];
              var close := bars[|bars| - 1].close;
              Live(sp, bars) == (if (last.kind == Low && close > major.price) || (last.kind == High && close < major.price)
                                 then [BosEvent(major.price, major.index, |bars| - 1, false, last.kind == Low)]
                                 else [])
  {
  }

  /** The events DetectBos publishes: all confirmed events, then at most one live event. */
  function BosEvents(sp: seq<SwingPoint>, bars: seq<Bar>): seq<BosEvent>
    requires |sp| > 1 ==> |bars| > 0
  {
    Confirmed(sp) + Live(sp, bars)
  }

  // ---------------------------------------------------------------------------
  // The engine object
  // ---------------------------------------------------------------------------

  class MarketStructure {
    const swingPeriod: nat
    var allPivots: seq<SwingPoint>
    var processedPivots: set<(SwingType, int)>
    var structurePoints: seq<SwingPoint>
    var bosEvents: seq<BosEvent>

    ghost predicate Valid()
      reads this
    {
      processedPivots == Keys(allPivots) && SortedByIndex(allPivots) && UniqueKeys(allPivots)
    }

    constructor (swingPeriod: nat)
      ensures Valid() && this.swingPeriod == swingPeriod
      ensures allPivots == [] && structurePoints == [] && bosEvents == []
    {
      this.swingPeriod := swingPeriod;
      allPivots := [];
      processedPivots := {};
      structurePoints := [];
      bosEvents := [];
    }

    /** Full rescan: the pivots of the bars, their structure, and its events. */
    method Update(bars: seq<Bar>)
      requires Valid()
      modifies this
      ensures Valid()
      ensures allPivots == Pivots(bars, swingPeriod)
      ensures structurePoints == Fold(allPivots)
      ensures bosEvents == BosEvents(structurePoints, bars)
    {
      ScanPivotList(bars);
      BuildStructure();
      StructureNeedsBars(bars, swingPeriod);
      DetectBos(bars);
    }

    /** The pivot half of Update: clears the list and its key set, then tests every bar with
        `swingPeriod` bars of context on both sides, High first. */
    method ScanPivotList(bars: seq<Bar>)
      requires Valid()
      modifies this`allPivots, this`processedPivots
      ensures Valid()
      ensures allPivots == Pivots(bars, swingPeriod)
    {
      allPivots := [];
      processedPivots := {};
      assert Keys([]) == {};
      var i := swingPeriod;
      while i < |bars| - swingPeriod
        invariant ScannedUpTo(bars, i)
      {
        ScanBar(bars, i);
        i := i + 1;
      }
    }

    /** The rescan has examined bars swingPeriod .. i-1. */
    ghost predicate ScannedUpTo(bars: seq<Bar>, i: int)
      reads this
    {
      swingPeriod <= i && (i == swingPeriod || i + swingPeriod <= |bars|) && Valid() &&
      allPivots == ScanPivots(bars, swingPeriod, i)
    }

    /** One iteration of the rescan: bar `i` is recorded as a High pivot, else as a Low pivot, else skipped. */
    method ScanBar(bars: seq<Bar>, i: int)
      requires ScannedUpTo(bars, i) && i + swingPeriod < |bars|
      modifies this`allPivots, this`processedPivots
      ensures ScannedUpTo(bars, i + 1)
      ensures allPivots == old(allPivots) + PivotAt(bars, i, swingPeriod)
    {
      ScanPivotsShape(bars, swingPeriod, i);
      var isHigh := CheckHighPivot(bars, i, swingPeriod);
      if isHigh {
        NewIndexIsNewKey(allPivots, SwingPoint(i, bars[i].high, High));
        AddPivot(SwingPoint(i, bars[i].high, High));
      } else {
        var isLow := CheckLowPivot(bars, i, swingPeriod);
        if isLow {
          NewIndexIsNewKey(allPivots, SwingPoint(i, bars[i].low, Low));
          AddPivot(SwingPoint(i, bars[i].low, Low));
        }
      }
    }

    /** Records a pivot unless its (type, index) key was seen; keeps the list sorted by index. */
    method AddPivot(p: SwingPoint)
      requires Valid()
      modifies this`allPivots, this`processedPivots
      ensures Valid()
      ensures Key(p) in old(processedPivots) ==> allPivots == old(allPivots) && processedPivots == old(processedPivots)
      ensures Key(p) !in old(processedPivots) ==>
                allPivots == InsertByIndex(old(allPivots), p) && processedPivots == old(processedPivots) + {Key(p)}
    {
      if Key(p) !in processedPivots {
        processedPivots := processedPivots + {Key(p)};
        InsertByIndexKeys(allPivots, p);
        allPivots := InsertByIndex(allPivots, p);
      }
    }

    /** Folds the pivots into the alternating structure, replacing the last point in place. */
    method BuildStructure()
      modifies this`structurePoints
      ensures structurePoints == Fold(allPivots)
    {
      structurePoints := [];
      if |allPivots| == 0 {
        return;
      }
      var lastPoint := allPivots[0];
      structurePoints := [lastPoint];
      assert allPivots[..1] == [allPivots[0]];
      assert Fold(allPivots[..1]) == Absorb(Fold([]), allPivots[0]);
      var i := 1;
      while i < |allPivots|
        invariant 1 <= i <= |allPivots|
        invariant structurePoints == Fold(allPivots[..i])
        invariant structurePoints != [] && lastPoint == structurePoints[|structurePoints| - 1]
      {
        var currentPoint := allPivots[i];
        assert allPivots[..i + 1][..i] == allPivots[..i];
        if currentPoint.kind != lastPoint.kind {
          structurePoints := structurePoints + [currentPoint];
          lastPoint := currentPoint;
        } else if (currentPoint.kind == High && currentPoint.price > lastPoint.price) ||
                  (currentPoint.kind == Low && currentPoint.price < lastPoint.price) {
          structurePoints := structurePoints[|structurePoints| - 1 := currentPoint];
          lastPoint := currentPoint;
        }
        i := i + 1;
      }
      assert allPivots[..i] == allPivots;
    }

    /** Rebuilds the events: one confirmed event per breaking triple, then the live event. */
    method DetectBos(bars: seq<Bar>)
      requires |structurePoints| > 1 ==> |bars| > 0
      modifies this`bosEvents
      ensures bosEvents == BosEvents(structurePoints, bars)
    {
      bosEvents := [];
      if |structurePoints| > 2 {
        var i := 2;
        while i < |structurePoints|
          invariant 2 <= i <= |structurePoints|
          invariant bosEvents == ConfirmedUpTo(structurePoints, i)
        {
          ConfirmTriple(i);
          i := i + 1;
        }
      }
      if |structurePoints| > 1 {
        AppendLive(bars);
      }
    }

    /** One iteration of the confirmed-event loop: the triple ending at position `i`. */
    method ConfirmTriple(i: int)
      requires 2 <= i < |structurePoints|
      modifies this`bosEvents
      ensures bosEvents == old(bosEvents) + TripleBos(structurePoints, i)
    {
      var prevPoint := structurePoints[i - 2];
      var midPoint := structurePoints[i - 1];
      var currentPoint := structurePoints[i];
      if currentPoint.kind == High && midPoint.kind == Low && prevPoint.kind == High {
        if currentPoint.price > prevPoint.price {
          bosEvents := bosEvents + [BosEvent(prevPoint.price, prevPoint.index, currentPoint.index, true, true)];
        }
      } else if currentPoint.kind == Low && midPoint.kind == High && prevPoint.kind == Low {
        if currentPoint.price < prevPoint.price {
          bosEvents := bosEvents + [BosEvent(prevPoint.price, prevPoint.index, currentPoint.index, true, false)];
        }
      }
    }

    /** The live check against the last close, for a structure of at least two points. */
    method AppendLive(bars: seq<Bar>)
      requires |structurePoints| > 1 && |bars| > 0
      modifies this`bosEvents
      ensures bosEvents == old(bosEvents) + Live(structurePoints, bars)
    {
      var lastStructurePoint := structurePoints[|structurePoints| - 1];
      var lastPriceBarIndex := |bars| - 1;
      var lastPrice := bars[|bars| - 1].close;
      var lastMajor := LastIndexOfKind(structurePoints, Opposite(lastStructurePoint.kind));
      if lastMajor.Some? {
        var lastMajorPivot := structurePoints[lastMajor.value];
        var isBullishBos := lastStructurePoint.kind == Low && lastPrice > lastMajorPivot.price;
        var isBearishBos := lastStructurePoint.kind == High && lastPrice < lastMajorPivot.price;
        if isBullishBos || isBearishBos {
          bosEvents := bosEvents + [BosEvent(lastMajorPivot.price, lastMajorPivot.index, lastPriceBarIndex, false, isBullishBos)];
        }
      }
    }
  }

  /** A structure of two or more points can only come from a non-empty bar series. */
  lemma StructureNeedsBars(bars: seq<Bar>, period: nat)
    ensures |Fold(Pivots(bars, period))| > 1 ==> |bars| > 0
  {
    FoldShape(Pivots(bars, period));
  }

  /** A point whose index is above every recorded index has a key not yet seen, and is appended. */
  lemma NewIndexIsNewKey(ps: seq<SwingPoint>, p: SwingPoint)
    requires SortedByIndex(ps) && forall q :: q in ps ==> q.index < p.index
    ensures Key(p) !in Keys(ps)
    ensures InsertByIndex(ps, p) == ps + [p]
  {
  }

  /** The loop of IsHighPivot: compares the bar's high with each neighbour pair, stopping at the first higher one. */
  method CheckHighPivot(bars: seq<Bar>, index: int, period: nat) returns (r: bool)
    requires period <= index && index + period < |bars|
    ensures r <==> IsHighPivot(bars, index, period)
  {
    var price := bars[index].high;
    var i := 1;
    while i <= period
      invariant 1 <= i <= period + 1
      invariant forall j :: index - i < j < index + i ==> bars[j].high <= price
    {
      if price < bars[index - i].high || price < bars[index + i].high {
        return false;
      }
      i := i + 1;
    }
    return true;
  }

  /** The loop of IsLowPivot, the mirror of CheckHighPivot. */
  method CheckLowPivot(bars: seq<Bar>, index: int, period: nat) returns (r: bool)
    requires period <= index && index + period < |bars|
    ensures r <==> IsLowPivot(bars, index, period)
  {
    var price := bars[index].low;
    var i := 1;
    while i <= period
      invariant 1 <= i <= period + 1
      invariant forall j :: index - i < j < index + i ==> price <= bars[j].low
    {
      if price > bars[index - i].low || price > bars[index + i].low {
        return false;
      }
      i := i + 1;
    }
    return true;
  }
  // ---------------------------------------------------------------------------
  // The CryptoBot trade gate
  // ---------------------------------------------------------------------------

  /** The confirmed event with the greatest end index; among equal end indices the later one in the list
      (a stable sort on EndIndex followed by taking the last element). */
  function LatestConfirmed(events: seq<BosEvent>): (r: Option<BosEvent>)
    ensures r.None? <==> forall e :: e in events ==> !e.confirmed
    ensures r.Some? ==> r.value in events && r.value.confirmed &&
                        forall e :: e in events && e.confirmed ==> e.endIndex <= r.value.endIndex
  {
    if events == [] then None
    else
      var front := events[..|events| - 1];
      var e := events[|events| - 1];
      assert events == front + [e];
      var r := LatestConfirmed(front);
      if e.confirmed && (r.None? || e.endIndex >= r.value.endIndex) then Some(e) else r
  }

  /** The structure point of type `t` with the greatest index below `bound`; among equal indices the later one. */
  function LastSwingBefore(sp: seq<SwingPoint>, t: SwingType, bound: int): (r: Option<SwingPoint>)
    ensures r.None? <==> forall q :: q in sp ==> !(q.kind == t && q.index < bound)
    ensures r.Some? ==> r.value in sp && r.value.kind == t && r.value.index < bound &&
                        forall q :: q in sp && q.kind == t && q.index < bound ==> q.index <= r.value.index
  {
    if sp == [] then None
    else
      var front := sp[..|sp| - 1];
      var q := sp[|sp| - 1];
      assert sp == front + [q];
      var r := LastSwingBefore(front, t, bound);
      if q.kind == t && q.index < bound && (r.None? || q.index >= r.value.index) then Some(q) else r
  }

  /** What the host reports on the bar: open positions under the bot's label, quotes, account and symbol data. */
  datatype Market = Market(hasOpenPositions: bool, ask: real, bid: real, pipSize: real, balance: real,
                           pipValuePerUnit: real, volumeStep: real)

  predicate ValidMarket(m: Market)
  {
    m.pipSize > 0.0 && m.pipValuePerUnit > 0.0 && m.volumeStep > 0.0
  }

  /** Volume for a 1 % balance risk over `stopLossPips`, rounded down to the volume step. */
  function RiskVolume(m: Market, stopLossPips: real): (r: real)
    requires ValidMarket(m) && stopLossPips > 0.0
    ensures r <= m.balance / 100.0 / (stopLossPips * m.pipValuePerUnit) < r + m.volumeStep
    ensures OnStep(r, m.volumeStep)
  {
    FloorToStep(m.balance * 1.0 / 100.0 / (stopLossPips * m.pipValuePerUnit), m.volumeStep)
  }

  /** The outcome of one bar: the new traded-signal mark and the order sent, if any. */
  datatype Decision = Decision(mark: int, order: Option<Order>)

  /** The type of the swing that carries the stop: a Low for a bullish break, a High for a bearish one. */
  function StopSide(b: BosEvent): SwingType
  {
    if b.bullish then Low else High
  }

  /** The stop distance in pips from the entry quote (ask for a buy, bid for a sell) to the swing `q`. */
  function StopPips(b: BosEvent, q: SwingPoint, m: Market): real
    requires ValidMarket(m)
  {
    if b.bullish then (m.ask - q.price) / m.pipSize else (q.price - m.bid) / m.pipSize
  }

  /** The order for a signal that passed the gate: the stop sits at the last swing of the stop side
      before the break; no order when there is no such swing, the stop distance is not positive or the
      volume rounds to zero. */
  function SignalOrder(b: BosEvent, sp: seq<SwingPoint>, m: Market, takeProfitRR: real): (r: Option<Order>)
    requires ValidMarket(m)
    ensures var q := LastSwingBefore(sp, StopSide(b), b.endIndex);
            r.Some? <==> q.Some? && StopPips(b, q.value, m) > 0.0 && RiskVolume(m, StopPips(b, q.value, m)) != 0.0
    ensures r.Some? ==>
              var q := LastSwingBefore(sp, StopSide(b), b.endIndex).value;
              q in sp && q.index < b.endIndex && q.kind == StopSide(b) &&
              r.value.stopLossPips == StopPips(b, q, m) > 0.0 &&
              r.value.volume == RiskVolume(m, r.value.stopLossPips) != 0.0 &&
              r.value.takeProfitPips == r.value.stopLossPips * takeProfitRR &&
              (r.value.direction == Buy <==> b.bullish)
  {
    match LastSwingBefore(sp, StopSide(b), b.endIndex)
    case None => None
    case Some(q) =>
      var stopLossPips := StopPips(b, q, m);
      if stopLossPips <= 0.0 then None
      else
        var volume := RiskVolume(m, stopLossPips);
        if volume == 0.0 then None
        else Some(Order(if b.bullish then Buy else Sell, volume, stopLossPips, stopLossPips * takeProfitRR))
  }

  /** The decision of OnBar after the engine update. A signal is consumed (the mark moves to its end index)
      as soon as it passes the gate, even when no order follows. */
  function Decide(mark: int, events: seq<BosEvent>, sp: seq<SwingPoint>, m: Market, takeProfitRR: real): (r: Decision)
    requires ValidMarket(m)
    ensures r.mark >= mark
    ensures r.mark != mark <==>
              !m.hasOpenPositions && LatestConfirmed(events).Some? && LatestConfirmed(events).value.endIndex > mark
    ensures r.mark != mark ==> LatestConfirmed(events).Some? && r.mark == LatestConfirmed(events).value.endIndex
    ensures r.mark != mark ==> r.order == SignalOrder(LatestConfirmed(events).value, sp, m, takeProfitRR)
    ensures r.mark == mark ==> r.order.None?
  {
    if m.hasOpenPositions then Decision(mark, None)
    else match LatestConfirmed(events)
      case None => Decision(mark, None)
      case Some(b) =>
        if b.endIndex <= mark then Decision(mark, None)
        else Decision(b.endIndex, SignalOrder(b, sp, m, takeProfitRR))
  }

  /** A signal is traded at most once: deciding again on the same events after a decision yields no order. */
  lemma NoRetrade(mark: int, events: seq<BosEvent>, sp: seq<SwingPoint>, m: Market, sp2: seq<SwingPoint>, m2: Market, rr: real)
    requires ValidMarket(m) && ValidMarket(m2)
    requires Decide(mark, events, sp, m, rr).order.Some?
    ensures Decide(Decide(mark, events, sp, m, rr).mark, events, sp2, m2, rr).order.None?
  {
  }

  class CryptoBot {
    const takeProfitRR: real
    const engine: MarketStructure
    var lastTradedBosIndex: int

    constructor (takeProfitRR: real, swingPeriod: nat)
      ensures this.takeProfitRR == takeProfitRR && engine.swingPeriod == swingPeriod && fresh(engine)
      ensures engine.Valid() && lastTradedBosIndex == -1
    {
      this.takeProfitRR := takeProfitRR;
      engine := new MarketStructure(swingPeriod);
      lastTradedBosIndex := -1;
    }

    /** On each new bar: rescans the structure, then applies the open-position check and the
        traded-signal gate. */
    method OnBar(bars: seq<Bar>, m: Market) returns (order: Option<Order>)
      requires engine.Valid() && ValidMarket(m)
      modifies this, engine
      ensures engine.Valid()
      ensures engine.allPivots == Pivots(bars, engine.swingPeriod)
      ensures engine.structurePoints == Fold(engine.allPivots)
      ensures engine.bosEvents == BosEvents(engine.structurePoints, bars)
      ensures Decision(lastTradedBosIndex, order) ==
              Decide(old(lastTradedBosIndex), engine.bosEvents, engine.structurePoints, m, takeProfitRR)
    {
      engine.Update(bars);
      order := None;
      if m.hasOpenPositions {
        return;
      }
      var lastConfirmedBos := LatestConfirmed(engine.bosEvents);
      if lastConfirmedBos.Some? && lastConfirmedBos.value.endIndex > lastTradedBosIndex {
        lastTradedBosIndex := lastConfirmedBos.value.endIndex;
        order := TradeSignal(lastConfirmedBos.value, engine.structurePoints, m);
      }
    }

    /** The order step for a fresh signal: stop distance from the last swing of the stop side, volume for
        a 1 % risk, take-profit at `takeProfitRR` times the stop. */
    method TradeSignal(bos: BosEvent, sp: seq<SwingPoint>, m: Market) returns (order: Option<Order>)
      requires ValidMarket(m)
      ensures order == SignalOrder(bos, sp, m, takeProfitRR)
    {
      order := None;
      var lastSwing := LastSwingBefore(sp, if bos.bullish then Low else High, bos.endIndex);
      if lastSwing.Some? {
        var stopLossPips;
        if bos.bullish {
          stopLossPips := (m.ask - lastSwing.value.price) / m.pipSize;
        } else {
          stopLossPips := (lastSwing.value.price - m.bid) / m.pipSize;
        }
        if stopLossPips <= 0.0 {
          return;
        }
        var volumeInUnits := RiskVolume(m, stopLossPips);
        if volumeInUnits == 0.0 {
          return;
        }
        var takeProfitPips := stopLossPips * takeProfitRR;
        order := Some(Order(if bos.bullish then Buy else Sell, volumeInUnits, stopLossPips, takeProfitPips));
        assert SignalOrder(bos, sp, m, takeProfitRR).value.volume == volumeInUnits;
        assert SignalOrder(bos, sp, m, takeProfitRR).value.takeProfitPips == takeProfitPips;
      }
    }
  }
}
