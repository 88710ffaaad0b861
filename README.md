# Price-structure engines of three cTrader robots

This project models the price-structure logic of three cTrader robots and proves properties of it:

- **CryptoBot** (`bot.cs`) rescans the chart on every bar for swing pivots. It keeps them sorted and free of duplicates by (type, index). It folds them into a strictly alternating High/Low structure that keeps the most extreme point of each same-type run. From the structure it derives confirmed break-of-structure (BoS) events and at most one live, unconfirmed event. It trades the newest confirmed event once, with the stop at the last opposite swing and a 1 % balance risk.
- **MarketStructureBot** (`MarketStructureBot.cs`) tracks a None/Uptrend/Downtrend state from single swing highs and lows. It signals a BoS when the close crosses the last higher low or lower high. It trades the signal at most once per server day. Stop and target come from the turning points of an embedded ZigZag indicator on the hourly series. That indicator is a per-bar filter with a trailing depth window, a deviation test, a backstep retraction and a three-state leg machine. The turning points are re-labelled High/Low by forced alternation.
- **AmdBot** (`main.cs`) scores the EMA trend on H1, H4, D1 and W1 into a market context. On the main timeframe it looks for an accumulation range followed by a manipulation candle (the AMD setup). It derives stop, target and a clamped risk volume for the entry.

Modelling choices:

- Prices are `real`. A comparison against `double.Epsilon` becomes exact equality.
- NaN, a null reference and `DateTime.MinValue` are `Option.None`. The ZigZag buffers keep the source's own "0 = no value" convention.
- Objects whose fields the source updates become classes with the same fields: `MarketStructure`, `CryptoBot`, `ZigZag`, `MarketStructureBot` and `AmdBot`.
  - The source's lists, its hash set and its indicator series become `seq` and `set` fields that the methods reassign.
  - Each method is proved against a pure function of the old state and its inputs. The properties are proved as lemmas about those functions.
- These host services become parameters of the methods:
  - bars;
  - EMA readings;
  - symbol and account values;
  - the server day, as an integer day number;
  - whether the host filled an order.

Four facts about the code surfaced while modelling it:

- The uptrend continuation test at `MarketStructureBot.cs:679` compares the higher high with itself and can never hold. Its branch has an empty body, so no behaviour depends on it.
- In AmdBot the manipulation scan range is always empty. So `CheckAmdSetup` never reports a setup, and the entry code is never reached from `OnMainBarOpened`.
- The alignment fallbacks of `GetMarketContext` only fire when the score threshold is already met.
- `CalculatePositionSize` in MarketStructureBot passes a lot count to `NormalizeVolumeInUnits` (`MarketStructureBot.cs:900`), so lots are rounded onto the units volume step; the lots are converted to units only afterwards (`MarketStructureBot.cs:862`). `PositionSize` models this mix as written.

## Model

| member | source | states |
|---|---|---|
| Common.FloorToStep | MarketStructureBot.cs:900 | Volume normalisation rounding down: the result is a whole number of steps, at most the amount and less than one step below it |
| Common.NearestStep | main.cs:472 | Volume normalisation to nearest: the result is a whole number of steps within half a step of the amount |
| Common.FloorToStepMonotone | MarketStructureBot.cs:900 | Rounding down onto the step preserves the order of two amounts |
| Common.PipsRoundTrip | MarketStructureBot.cs:797-798 | Converting a price distance to pips and back gives the distance; the pip count is positive iff the distance is |
| MarketStructureEngine.ScanPivotsShape | bot.cs:125-135 | The scan records pivots in strictly increasing index order, only for bars in [period, Count − period); a point is tagged High iff the high test holds, Low only if the low test holds, with that bar's high or low as price |
| MarketStructureEngine.ScanPivotsComplete | bot.cs:125-135 | Every scanned bar passing the high test is recorded as High; one failing it but passing the low test is recorded as Low |
| MarketStructureEngine.CheckHighPivot | bot.cs:141-152 | The loop returns true iff the bar's high is at least every high within `period` bars on both sides (ties allowed) |
| MarketStructureEngine.CheckLowPivot | bot.cs:154-165 | The mirror on lows |
| MarketStructureEngine.InsertByIndex | bot.cs:172-173 | Add-then-sort keeps the list sorted by index, grows it by one, holds exactly the old points plus the new one, and appends when the new index is the largest |
| MarketStructureEngine.InsertByIndexPermutes | bot.cs:172-173 | The sorted insertion is a permutation: multiset of old list plus the new point |
| MarketStructureEngine.InsertByIndexKeys | bot.cs:167-175 | Inserting a point whose (type, index) key is new keeps keys unique and adds exactly that key |
| MarketStructureEngine.InsertByIndexUnique | bot.cs:167-175 | A point with a new key keeps all (type, index) keys distinct |
| MarketStructureEngine.NewIndexIsNewKey | bot.cs:167-175 | A pivot whose index is above all recorded ones has an unseen key and is appended at the end |
| MarketStructureEngine.FoldShape | bot.cs:177-203 | The structure is empty iff there are no pivots, is no longer than the pivots, alternates High/Low strictly, and holds only pivots |
| MarketStructureEngine.FoldIncreasing | bot.cs:177-203 | With strictly increasing pivot indices the structure's indices increase strictly |
| MarketStructureEngine.AbsorbExtreme | bot.cs:188-200 | One fold step (append other type, replace by strictly more extreme, else discard) keeps every pivot dominated by the structure point of its run |
| MarketStructureEngine.FoldExtremity | bot.cs:185-201 | Every pivot is dominated (at least as high, or as low) by the structure point of its run, and every pivot after the last structure point by that point |
| MarketStructureEngine.ConfirmedProvenance | bot.cs:209-245 | Every confirmed event comes from a consecutive High-Low-High with a higher second High (bullish) or Low-High-Low with a lower second Low (bearish), with level and start from the first point and end from the third; every such triple yields its event |
| MarketStructureEngine.ConfirmedOrdered | bot.cs:209-245 | Confirmed events have strictly increasing end indices, all within the structure |
| MarketStructureEngine.LastIndexOfKind | bot.cs:253-261 | The position returned holds the type and no later position does; none iff no point has the type |
| MarketStructureEngine.LiveEvent | bot.cs:247-280 | At most one live event, needing two structure points, unconfirmed, ending at the last bar, bullish iff the last point is Low and the close is above the level; on an alternating structure the level is the second-to-last point and the event exists iff the close is beyond it |
| MarketStructureEngine.StructureNeedsBars | bot.cs:247-251 | A structure of two or more points implies a non-empty bar series, so the last close exists |
| MarketStructureEngine.MarketStructure.constructor | bot.cs:113-118 | The engine starts with empty lists and the given swing period |
| MarketStructureEngine.MarketStructure.Update | bot.cs:120-139 | After a rescan, pivots are exactly the scan of the bars, structure is their fold, events are confirmed plus live events, and the sorted/unique-key invariant holds |
| MarketStructureEngine.MarketStructure.ScanPivotList | bot.cs:122-135 | The cleared and refilled pivot list equals the scan of all eligible bars |
| MarketStructureEngine.MarketStructure.ScanBar | bot.cs:127-134 | One iteration appends the pivot of bar i (High first) and keeps the invariant |
| MarketStructureEngine.MarketStructure.AddPivot | bot.cs:167-175 | A seen key changes nothing; a new key is recorded and the point inserted in index order |
| MarketStructureEngine.MarketStructure.BuildStructure | bot.cs:177-203 | The in-place loop (append or replace last) yields the fold of the pivots |
| MarketStructureEngine.MarketStructure.DetectBos | bot.cs:205-281 | The events are the confirmed events followed by the live event |
| MarketStructureEngine.MarketStructure.ConfirmTriple | bot.cs:211-244 | One loop iteration appends the triple's event, if any |
| MarketStructureEngine.MarketStructure.AppendLive | bot.cs:247-280 | The live check appends exactly the live event |
| MarketStructureEngine.LatestConfirmed | bot.cs:41-44 | The result is a confirmed event with the largest end index; none iff no event is confirmed |
| MarketStructureEngine.LastSwingBefore | bot.cs:53-56 | The structure point of the requested type with the largest index below the bound; none iff there is no such point |
| MarketStructureEngine.RiskVolume | bot.cs:66 | The 1 % balance risk volume over the stop, rounded down: a whole number of volume steps, less than one step below the exact risk volume |
| MarketStructureEngine.SignalOrder | bot.cs:51-96 | An order exists iff there is a swing of the stop side (Low for bullish, High for bearish) before the break, the stop distance to the latest such swing (from the ask, or the bid) is positive and the risk volume is non-zero; it then carries that stop distance, RiskVolume of it, TP = stop × R:R, Buy iff bullish |
| MarketStructureEngine.Decide | bot.cs:36-97 | The mark never decreases, and moves iff there are no open positions and the newest confirmed event ends after it; it moves to that event's end index; a moved mark comes with SignalOrder of that event, an unmoved mark with no order |
| MarketStructureEngine.NoRetrade | bot.cs:46-49 | After a decision that traded, deciding again on the same events gives no order |
| MarketStructureEngine.CryptoBot.constructor | bot.cs:24-29 | The bot starts with a fresh engine and mark −1 |
| MarketStructureEngine.CryptoBot.OnBar | bot.cs:31-98 | The engine is rescanned and the new mark and order are those of Decide |
| MarketStructureEngine.CryptoBot.TradeSignal | bot.cs:51-96 | The order step returns SignalOrder |
| ZigZagIndicator.WindowMin | MarketStructureBot.cs:189 | The trailing minimum is at most every value of the window and is one of them |
| ZigZagIndicator.WindowMax | MarketStructureBot.cs:212 | The trailing maximum is at least every value of the window and is one of them |
| ZigZagIndicator.Perform | MarketStructureBot.cs:179-307 | One bar of the filter keeps the two buffers and the output the same length |
| ZigZagIndicator.WarmUp | MarketStructureBot.cs:181-187 | During warm-up only position index of the output and buffers changes, to NaN and 0 |
| ZigZagIndicator.RetractFrame | MarketStructureBot.cs:200-204 | The backstep changes an entry iff it is among the `steps` before index and is a weaker non-zero candidate, and then only to 0 |
| ZigZagIndicator.SideStepCandidate | MarketStructureBot.cs:189-234 | The buffer at index is non-zero iff the trailing extreme is new, within the deviation, equal to the bar's price and non-zero, and then holds the price; other entries change only by backstep retraction |
| ZigZagIndicator.TrendRange | MarketStructureBot.cs:242-306 | The state stays in {0, 1, −1} and never returns to 0 |
| ZigZagIndicator.AfterLow | MarketStructureBot.cs:259-282 | In state 1 a lower low moves the output and clears the previous low; a high is accepted only above the last low (or with none) and switches state; otherwise that high is erased and the state kept |
| ZigZagIndicator.AfterHigh | MarketStructureBot.cs:283-306 | The mirror in state −1 |
| ZigZagIndicator.TrendStepOutput | MarketStructureBot.cs:240-306 | The state machine writes only the bar's own positive candidate at index and elsewhere only clears the previous leg end |
| ZigZagIndicator.ResultFrame | MarketStructureBot.cs:240-306 | Across a whole bar, the output changes away from index only at the previous leg end, to NaN |
| ZigZagIndicator.ResultValue | MarketStructureBot.cs:189-306 | A value written at index is positive and is the bar's own low-side or high-side price |
| ZigZagIndicator.ZigZag.constructor | MarketStructureBot.cs:102-113 | A fresh indicator: zero state, zeroed buffers, NaN output, tick size read |
| ZigZagIndicator.ZigZag.Calculate | MarketStructureBot.cs:115-140 | The tick size is re-read while 0; while it stays 0 only the output at index is reset; otherwise the state becomes Perform on the mode's series |
| ZigZagIndicator.ZigZag.PerformIndicator | MarketStructureBot.cs:179-307 | The in-place update equals Perform on the old state |
| ZigZagIndicator.ZigZag.LowSide | MarketStructureBot.cs:189-210 | The low half of the update equals the low side step |
| ZigZagIndicator.ZigZag.HighSide | MarketStructureBot.cs:212-234 | The high half of the update equals the high side step |
| ZigZagIndicator.ZigZag.TrendUpdate | MarketStructureBot.cs:240-306 | The in-place state machine equals TrendStep |
| ZigZagIndicator.RetractBuffer | MarketStructureBot.cs:200-204 | The backstep loop equals Retract |
| StructureBot.GuardAdmitsNegativeIndex | MarketStructureBot.cs:534-547 | With depth 2 and four bars the written guard passes, yet the left window starts at bar −1 |
| StructureBot.SwingWindowInBounds | MarketStructureBot.cs:534-547 | Under the corrected guard every bar the swing tests read exists; it implies the written guard and agrees with it for depth ≤ 1 |
| StructureBot.SwingHighAt | MarketStructureBot.cs:543-554 | The loop (and the repeated depth-1 test) returns true iff highs before are ≤ and highs after are strictly < the bar's high |
| StructureBot.SwingLowAt | MarketStructureBot.cs:569-579 | The mirror on lows |
| StructureBot.LowestLowAfter | MarketStructureBot.cs:645-661 | The lookback returns the lowest low after the given bar among the last `range` bars, a later bar winning ties, or the current bar when none qualifies |
| StructureBot.HighestHighAfter | MarketStructureBot.cs:711-727 | The mirror on highs |
| StructureBot.Swings | MarketStructureBot.cs:540-590 | Only HH and LL change, each only to the swing point at currentIndex − depth that passed its test; a swing high (low) that passes its test is recorded: HH (LL) then has its price and index |
| StructureBot.ContinuationAsWritten | MarketStructureBot.cs:679 | The continuation test as written is never true |
| StructureBot.Transition | MarketStructureBot.cs:604-747 | A trend never returns to None; a signal is raised only by a switch away from an existing trend, Sell iff the new trend is Down |
| StructureBot.Identify | MarketStructureBot.cs:531-538 | Without the corrected bar-count guard the state is unchanged; a raised signal implies bars exist |
| StructureBot.UptrendBreak | MarketStructureBot.cs:628-675 | In an uptrend a close below HL is exactly what switches to downtrend, with Sell at the HH price, LH := old HH, LL := current bar's low, HH and HL cleared; otherwise nothing changes |
| StructureBot.DowntrendBreak | MarketStructureBot.cs:694-741 | The mirror for a close above LH |
| StructureBot.TrendStart | MarketStructureBot.cs:604-627 | From None, an uptrend starts iff no HL is stored and the swing low precedes a higher swing high (HL := LL); otherwise a downtrend starts iff no LH is stored and the swing high precedes a lower swing low (LH := HH); no signal; with neither, nothing changes |
| StructureBot.CutoffIndex | MarketStructureBot.cs:986-994 | The cutoff is the last bar opening at or before the time, or −1 |
| StructureBot.RawFromSound | MarketStructureBot.cs:1002-1010 | Every collected point is a non-NaN, non-zero output value in range, with its bar's open time |
| StructureBot.RawFromSorted | MarketStructureBot.cs:1002-1018 | Collected points are in strictly ascending index order |
| StructureBot.RawFromComplete | MarketStructureBot.cs:1002-1010 | No turning point in range is missed |
| StructureBot.ClassifyShape | MarketStructureBot.cs:1020-1063 | Labelling keeps at most the raw points and from two points on is the forced alternation |
| StructureBot.GetClassifiedZigZagPoints | MarketStructureBot.cs:975-1066 | The backward loops, reversal and labelling give the classified points |
| StructureBot.FindCutoff | MarketStructureBot.cs:986-994 | The backward search returns the cutoff index |
| StructureBot.CollectRaw | MarketStructureBot.cs:1002-1018 | The backward collection followed by Reverse gives the turning points oldest first |
| StructureBot.Label | MarketStructureBot.cs:1039-1063 | With at least two points, the labelling loop gives the forced alternation that starts High iff the first point is above the second |
| StructureBot.NoBarNoPoints | MarketStructureBot.cs:996-1000 | No bar at or before the cutoff: no points |
| StructureBot.ClassifiedSound | MarketStructureBot.cs:1002-1018 | With ≥ 2 points, each is an output turning point at or before the cutoff with its value and time, in ascending index order |
| StructureBot.ClassifiedComplete | MarketStructureBot.cs:1002-1010 | With ≥ 2 points, every turning point at or before the cutoff is present |
| StructureBot.ClassifiedAlternate | MarketStructureBot.cs:1037-1063 | With ≥ 2 points the first is High iff above the second and labels alternate strictly |
| StructureBot.FirstOfKind | MarketStructureBot.cs:778 | FirstOrDefault as written: the oldest point of the kind; none iff there is none |
| StructureBot.LastOfKind | MarketStructureBot.cs:777-795 | The most recent point of the kind, as the stop and target placement intends; none iff there is none |
| StructureBot.FirstOfKindPicksOldest | MarketStructureBot.cs:778 | On L, H, L, H the written selection takes the older low and high, not the latest |
| StructureBot.PositionSize | MarketStructureBot.cs:881-901 | 0 for a non-positive stop or zero pip value; otherwise the risk lots rounded down: a whole number of volume steps, less than one step below the exact lots |
| StructureBot.PositionSizeMonotone | MarketStructureBot.cs:881-901 | For a fixed stop, a higher risk percentage never gives a smaller size |
| StructureBot.SizedOrder | MarketStructureBot.cs:854-865 | An order exists iff PositionSize for the stop is positive; its volume is that size times the lot size, with the given direction and distances |
| StructureBot.PlanBuy | MarketStructureBot.cs:773-811 | A buy is placed iff there are a classified low and high, the stop (buffer below the latest low) is below the ask and the target (latest high) above it, both pip distances meet their minimum, and the size is positive; its volume is PositionSize of its stop times the lot size |
| StructureBot.PlanSell | MarketStructureBot.cs:813-851 | The mirror for a sell from the bid |
| StructureBot.PlanTrade | MarketStructureBot.cs:773-852 | An order exists iff all checks of the signalled side pass; it has that direction, positive volume and meets both minimum distances |
| StructureBot.PlanBuyLevels | MarketStructureBot.cs:785-805 | A buy's stop lies the buffer below the latest low and below the ask, its target is the latest high above the ask, and its pip distances measure those gaps |
| StructureBot.PlanSellLevels | MarketStructureBot.cs:825-845 | The mirror for a sell |
| StructureBot.MarketStructureBot.constructor | MarketStructureBot.cs:476-490 | Starts with no trend, no structure points, no signal and no trade date |
| StructureBot.MarketStructureBot.OnBar | MarketStructureBot.cs:509-529 | The new state is Identify on the cleared signal; an order is placed only on a signal on a day without a filled trade, and is PlanTrade on the classified hourly points; a filled order records the day |
| StructureBot.MarketStructureBot.IdentifyMarketStructure | MarketStructureBot.cs:531-748 | The in-place update equals Identify |
| StructureBot.MarketStructureBot.DetectSwings | MarketStructureBot.cs:540-590 | The swing detection equals Swings |
| StructureBot.MarketStructureBot.StartTrend | MarketStructureBot.cs:604-627 | Equals the None case of Transition |
| StructureBot.MarketStructureBot.BreakUptrend | MarketStructureBot.cs:632-675 | Equals BreakDown; the lookback replacement cannot fire |
| StructureBot.MarketStructureBot.BreakDowntrend | MarketStructureBot.cs:698-741 | Equals BreakUp; the lookback replacement cannot fire |
| StructureBot.MarketStructureBot.ExecuteTrade | MarketStructureBot.cs:758-879 | The order is PlanTrade on the classified points up to the bar's open time when signalled; the signal is always consumed; a filled order records the day |
| AmdStrategy.TrendOnTimeframe | main.cs:159-174 | Neutral when any value is NaN; Bullish iff price > fast > slow; Bearish iff price < fast < slow |
| AmdStrategy.TrendMirror | main.cs:171-173 | Negating all three values swaps Bullish and Bearish |
| AmdStrategy.Sign | main.cs:186-189 | The per-timeframe sign is in [−1, 1], positive iff Bullish, negative iff Bearish |
| AmdStrategy.Score | main.cs:185-189 | The weighted score lies in [−10, 10] |
| AmdStrategy.ScoreOpposite | main.cs:185-189 | Swapping all trends negates the score |
| AmdStrategy.MarketContext | main.cs:176-220 | Bullish iff score ≥ 5 and Bearish iff score ≤ −5 |
| AmdStrategy.AlignedScore | main.cs:204-217 | The alignment fallbacks only fire when the threshold is already met |
| AmdStrategy.ContextSymmetric | main.cs:197-219 | Swapping Bullish and Bearish in every input swaps the context |
| AmdStrategy.AccumulationSpan | main.cs:244-251 | The window ends at Count − 2, starts at or after 0, and with the demanded bar count is exactly lookback long, so the half-length check never rejects |
| AmdStrategy.ManipulationSpan | main.cs:283-290 | The manipulation scan starts after it ends: the range is always empty |
| AmdStrategy.WindowExtremes | main.cs:253-261 | The accumulation high is the largest high of the window and a high of one of its bars; the low likewise |
| AmdStrategy.AccumulationExtremes | main.cs:253-261 | The sentinel loop computes the window's highest high and lowest low |
| AmdStrategy.AcceptedRangeBounds | main.cs:263-265 | The range is accepted iff low < high and high − low is at most the maximum range in price |
| AmdStrategy.ManipulationMirror | main.cs:299-353 | The bearish candle test is the bullish one on the mirrored bar |
| AmdStrategy.FindManipulation | main.cs:292-354 | The scan returns the first bar in the span passing the context's test, or none when no bar does |
| AmdStrategy.EntryPlan | main.cs:398-424 | Stop two pips beyond the extreme; an entry exists iff the stop is beyond the entry price; TP = 2 × stop; Buy iff Bullish; none when Neutral |
| AmdStrategy.EntryMirror | main.cs:400-419 | A sell on negated prices has the same distances as the buy |
| AmdStrategy.Volume | main.cs:448-500 | 0 for a non-positive stop, zero lot size or non-positive pip value per unit; otherwise the risk quantity rounded to the nearest step, raised to the minimum when below it (never rejected), lowered to exactly the maximum when above it, and kept (a whole number of steps) in between |
| AmdStrategy.CalculateVolume | main.cs:448-500 | The step-by-step computation equals Volume |
| AmdStrategy.EntryOrder | main.cs:380-431 | An order exists iff trades are left, the extreme is set, the entry is valid and Volume for its stop is positive; it carries the entry's direction and distances and that volume |
| AmdStrategy.AccumulationOutcome | main.cs:237-280 | The manipulation fields are untouched; too few bars or a zero lookback change nothing; with enough bars an accepted window range records exactly the window's highest high, lowest low and the two open times, and a rejected one changes nothing; a recorded range has 0 < high − low ≤ the maximum and bounds every bar of the window |
| AmdStrategy.AmdBot.constructor | main.cs:58-67 | Starts with no trades, no trade date and cleared AMD fields |
| AmdStrategy.AmdBot.OnMainBarOpened | main.cs:104-148 | A new day resets the counter; with trades left and a decided context the AMD fields become the accumulation outcome of a reset; no order is ever sent |
| AmdStrategy.AmdBot.ResetAmdState | main.cs:222-231 | All AMD fields are cleared |
| AmdStrategy.AmdBot.CheckAmdSetup | main.cs:233-365 | Never reports a setup; the fields become the accumulation outcome |
| AmdStrategy.AmdBot.ExecuteTradeBasedOnEntryModel | main.cs:376-446 | The order is EntryOrder at the last closed bar's close; a filled order counts towards the day and records it |

## Left out

- Chart drawing and labels are not modelled; they only observe state:
  - `DrawSwingPoint`, `MarkStructurePoint`, `DrawBoSLine`, `Chart.*`;
  - the ZigZag label counters `_countHigh`, `_countLow` and `_waiting` (MarketStructureBot.cs:142-174).
- `Print` logging, parameter declarations, `OnStart`, `OnStop`, `OnTick` and the `BarOpened` subscription are not modelled.
- Order execution is not modelled: whether the host filled an order is the `filled` parameter.
- `Positions.FindAll` is the `hasOpenPositions` input.
- EMA values, bars, quotes, balance and symbol data are inputs.
- The server time is an integer day number.
- The host's guarantees about symbols are the `ValidSymbol`/`ValidMarket` requirements: positive pip size and volume step.
- Volume normalisation by the host is rounding onto a volume step. Rounding mode Down becomes `FloorToStep` and ToNearest becomes `NearestStep`.
  - `VolumeForProportionalRisk` is the 1 % risk volume rounded down.
  - `QuantityToVolumeInUnits` is lots × lot size.
  - Minimum and maximum volume checks inside the host are not modelled.
- Floating point is not modelled: rounding of pip divisions, NaN propagation and `double.Epsilon` tolerance. The `double.MinValue`/`MaxValue` loop sentinels are `None`.
- MarketStructureBot takes the hourly ZigZag output as the `h1Result` input. It is not an owned `ZigZag` instance driven bar by bar; the `ZigZag` class models that indicator on its own.
- ExecuteTrade computes the classified points once per call, where the source calls `GetClassifiedZigZagPoints` twice on the same inputs.
- The `currentValidSwings` list (MarketStructureBot.cs:597-599) is built but never read, so it is not modelled.
- ZigZag output and buffers are sequences of a fixed capacity given at construction; they do not grow with the bar series.
- ZigZag `Calculate` takes the tick size as an input. The fallback through `Chart.Symbol` is the same input.
- `TakeProfitRR` of MarketStructureBot is declared but unused by its order logic, so it is not modelled.
- `InsertByIndex` models `Add` followed by an index sort as insertion after every entry with an index not above the new one. The host's sort is not stable. Since the rescan only ever appends strictly larger indices (`NewIndexIsNewKey`), no two entries share an index and the order is the same.
- `AmdStrategy.AmdBot.OnMainBarOpened`: `ExecuteTradeBasedOnEntryModel` is unreachable from it, because `CheckAmdSetup` never reports a setup. The model proves this instead of calling the method. `FindManipulation` is likewise not called by `CheckAmdSetup`, because its span is always empty; it is modelled and proved on its own. The source's loop also writes `_manipulationExtreme` and `_manipulationTime` for the bar it finds (main.cs:313-314, 341-342); that write is unreachable for the same reason, and `FindManipulation` returns only the index.
- The over-risk check in `CalculateVolume` (main.cs:494-498) only prints a warning, so it is not modelled.
- `AmdStrategy.AmdBot.CheckAmdSetup` rejects an empty accumulation window directly instead of through the `double.MinValue`/`MaxValue` sentinels. Such a window only arises with a lookback of 0, below the parameter's minimum of 5. The outcome is the same: the sentinels give a negative range, which the source rejects.
- `StructureBot.Identify` and `StructureBot.MarketStructureBot.IdentifyMarketStructure` apply the corrected bar-count guard (`SwingWindowReady`) instead of the written one at MarketStructureBot.cs:534. For bar counts with depth + 1 ≤ Count − 1 < 2 × depth, the source goes on to the swing tests and the trend step, which read bars before bar 0. The model leaves the state unchanged there. What the host returns for those reads is not part of this model.
- `StructureBot.PlanBuy`, `StructureBot.PlanSell`, `StructureBot.PlanTrade`, `StructureBot.MarketStructureBot.ExecuteTrade` and `StructureBot.MarketStructureBot.OnBar` place stop and target at the most recent classified low and high (`LastOfKind`). This is the corrected selection from the Findings table. The source takes the oldest with `FirstOrDefault` (MarketStructureBot.cs:778, 788, 818 and 828). On points with more than one low or high, the source's order differs from the model's; `FirstOfKind` models the written selection.
- `ZigZagIndicator.SideStep` and `ZigZagIndicator.Perform` read the trailing window that ends at the bar being calculated, `index − depth + 1 .. index`. The source calls `Minimum(Depth)` and `Maximum(Depth)` (MarketStructureBot.cs:189 and 212), which take no index and read the window that ends at the newest bar of the host series. The two agree only when `index` is the newest bar. For an earlier `index` the model takes the window ending at `index`, as the indicator's per-bar design intends; the source as written reads the newest bars, and that reading is not modelled.
- `StructureBot.ContinuationAsWritten` has no corrected counterpart. The branch it guards (MarketStructureBot.cs:679-691) has an empty body, so a corrected condition would change no state.

## Findings

| source | as written | input that shows it | evidently intended | confidence | as-written member | corrected member |
|---|---|---|---|---|---|---|
| MarketStructureBot.cs:534 | The guard `currentIndex >= Depth + 1` lets the swing tests read `indexToCheck - i` for i up to Depth | Depth 2, four bars with highs 1, 3, 2, 0: currentIndex 3 passes; indexToCheck is 1, bar 1 passes the i = 1 comparisons, so i = 2 reads bar −1 | Require `currentIndex - Depth >= Depth` as well, so the whole left window exists | high (not executed) | StructureBot.GuardAdmitsNegativeIndex | StructureBot.SwingWindowInBounds |
| MarketStructureBot.cs:778 | Stop and target use `FirstOrDefault`, the oldest classified low/high; the same at lines 788, 818 and 828 | Points L 1.10, H 1.20, L 1.15, H 1.25 in time order: the buy stop uses 1.10 rather than the latest low 1.15 | Use the most recent low/high, as the comments ask ("last H1 ZigZag Low") | high (not executed) | StructureBot.FirstOfKindPicksOldest | StructureBot.LastOfKind |
