/**
 * The date walks of the backfiller's main loop. Instants are integer
 * nanoseconds and durations integer nanoseconds (Go's time.Duration); the
 * trading calendar is the parameter `isMarketDay`. Every backfill call the
 * loops make becomes a WorkUnit value appended to a sequence.
 */
module Schedule {

  type Time = int
  type Duration = int

  const Hour: Duration := 3_600_000_000_000
  const Day: Duration := 24 * Hour
  const MaxBarPeriod: Duration := 60 * Day

  /** One backfill call, with the arguments it is given. */
  datatype WorkUnit =
    | Bars(symbol: string, from: Time, to: Time)
    | BarsFromTrades(symbol: string, from: Time, exchangeIDs: seq<int>, batchSize: int)
    | Quotes(symbol: string, from: Time, to: Time, batchSize: int)
    | Trades(symbol: string, from: Time, batchSize: int)

  /** A bar window [from, to). */
  datatype Window = Window(from: Time, to: Time)

  function Min(a: int, b: int): int { if a <= b then a else b }

  /** The bar-period clamp: below one day becomes one day, above sixty days sixty days. */
  function ClampBarPeriod(d: Duration): (r: Duration)
    ensures Day <= r <= MaxBarPeriod
    ensures Day <= d <= MaxBarPeriod ==> r == d
    ensures d < Day ==> r == Day
    ensures d > MaxBarPeriod ==> r == MaxBarPeriod
  {
    var p := if d < Day then Day else d;
    if p > MaxBarPeriod then MaxBarPeriod else p
  }

  lemma ClampBarPeriodIdempotent(d: Duration)
    ensures ClampBarPeriod(ClampBarPeriod(d)) == ClampBarPeriod(d)
  {
  }

  /** The step of a symbol's bar walk: one day whenever an exchange filter is given. */
  function BarStep(period: Duration, exchangeIDs: seq<int>): (step: Duration)
    ensures |exchangeIDs| != 0 ==> step == Day
    ensures |exchangeIDs| == 0 ==> step == period
  {
    if |exchangeIDs| != 0 && period != Day then Day else period
  }

  /** The k-th point of the walk from `start` in steps of `step`. */
  function GridPoint(start: Time, step: Duration, k: nat): Time
  {
    start + k * step
  }

  /**
   * The points start, start + step, ... before `end` that fall on a market
   * day, in walk order: the instants at which a loop of the form
   * `for e.After(s) { if IsMarketDay(s) { ... }; s = s.Add(step) }` acts.
   */
  function MarketGrid(start: Time, end: Time, step: Duration, isMarketDay: Time -> bool): seq<Time>
    requires step > 0
    decreases end - start
  {
    if end <= start then []
    else (if isMarketDay(start) then [start] else []) + MarketGrid(start + step, end, step, isMarketDay)
  }

  /** Every point lies in [start, end) and is a market day. */
  predicate MarketDaysWithin(days: seq<Time>, start: Time, end: Time, isMarketDay: Time -> bool)
  {
    forall i :: 0 <= i < |days| ==> start <= days[i] < end && isMarketDay(days[i])
  }

  /** Points come in increasing order, at least a step apart. */
  predicate StepApart(days: seq<Time>, step: Duration)
  {
    forall i, j :: 0 <= i < j < |days| ==> days[i] + step <= days[j]
  }

  lemma {:induction false} MarketGridWithin(start: Time, end: Time, step: Duration, isMarketDay: Time -> bool)
    requires step > 0
    ensures MarketDaysWithin(MarketGrid(start, end, step, isMarketDay), start, end, isMarketDay)
    decreases end - start
  {
    if start < end {
      var days, rest := MarketGrid(start, end, step, isMarketDay), MarketGrid(start + step, end, step, isMarketDay);
      MarketGridWithin(start + step, end, step, isMarketDay);
      if isMarketDay(start) {
        assert days == [start] + rest;
        forall i | 0 <= i < |days| ensures start <= days[i] < end && isMarketDay(days[i]) {
          if i > 0 {
            assert days[i] == rest[i - 1];
          }
        }
      } else {
        assert days == rest;
      }
    }
  }

  lemma {:induction false} MarketGridStepApart(start: Time, end: Time, step: Duration, isMarketDay: Time -> bool)
    requires step > 0
    ensures StepApart(MarketGrid(start, end, step, isMarketDay), step)
    decreases end - start
  {
    if start < end {
      var days, rest := MarketGrid(start, end, step, isMarketDay), MarketGrid(start + step, end, step, isMarketDay);
      MarketGridStepApart(start + step, end, step, isMarketDay);
      if isMarketDay(start) {
        MarketGridWithin(start + step, end, step, isMarketDay);
        assert days == [start] + rest;
        forall i, j | 0 <= i < j < |days| ensures days[i] + step <= days[j] {
          assert days[j] == rest[j - 1];
          if i > 0 {
            assert days[i] == rest[i - 1];
          }
        }
      } else {
        assert days == rest;
      }
    }
  }

  /**
   * The grid holds only market days inside [start, end), in increasing
   * order, at least a step apart.
   */
  lemma MarketGridSorted(start: Time, end: Time, step: Duration, isMarketDay: Time -> bool)
    requires step > 0
    ensures MarketDaysWithin(MarketGrid(start, end, step, isMarketDay), start, end, isMarketDay)
    ensures StepApart(MarketGrid(start, end, step, isMarketDay), step)
  {
    MarketGridWithin(start, end, step, isMarketDay);
    MarketGridStepApart(start, end, step, isMarketDay);
  }

  /** Every point of the grid is a point of the walk. */
  lemma {:induction false} MarketGridOnWalk(start: Time, end: Time, step: Duration, isMarketDay: Time -> bool)
    requires step > 0
    ensures forall d :: d in MarketGrid(start, end, step, isMarketDay) ==>
      exists k: nat :: GridPoint(start, step, k) == d
    decreases end - start
  {
    if start < end {
      var rest := MarketGrid(start + step, end, step, isMarketDay);
      MarketGridOnWalk(start + step, end, step, isMarketDay);
      assert GridPoint(start, step, 0) == start;
      forall d | d in rest ensures exists k: nat :: GridPoint(start, step, k) == d {
        var k: nat :| GridPoint(start + step, step, k) == d;
        assert GridPoint(start, step, k + 1) == d;
      }
    }
  }

  /** Every point of the walk before `end` on a market day is in the grid. */
  lemma {:induction false} MarketGridComplete(start: Time, end: Time, step: Duration, isMarketDay: Time -> bool, k: nat)
    requires step > 0
    requires GridPoint(start, step, k) < end && isMarketDay(GridPoint(start, step, k))
    ensures GridPoint(start, step, k) in MarketGrid(start, end, step, isMarketDay)
    decreases k
  {
    if k > 0 {
      assert GridPoint(start + step, step, k - 1) == GridPoint(start, step, k);
      assert start <= GridPoint(start, step, k);
      MarketGridComplete(start + step, end, step, isMarketDay, k - 1);
    }
  }

  /**
   * The windows of a symbol's bar walk: a window opens at every market-day
   * point of the walk and spans one step, except that a window that would
   * pass `end` is cut to end there.
   */
  function BarWindows(start: Time, end: Time, step: Duration, isMarketDay: Time -> bool): seq<Window>
    requires step > 0
    decreases end - start
  {
    if end <= start then []
    else if isMarketDay(start) then
      if start + step > end then [Window(start, end)]
      else [Window(start, start + step)] + BarWindows(start + step, end, step, isMarketDay)
    else BarWindows(start + step, end, step, isMarketDay)
  }

  /** One window per grid point, opening there and spanning a step cut at `end`. */
  predicate WindowsFollowGrid(ws: seq<Window>, days: seq<Time>, step: Duration, end: Time)
  {
    |ws| == |days| && forall i :: 0 <= i < |ws| ==> ws[i] == Window(days[i], Min(days[i] + step, end))
  }

  /** The bar windows are the market-day points of the walk, each spanning a step cut at `end`. */
  lemma {:induction false} BarWindowsOnMarketGrid(start: Time, end: Time, step: Duration, isMarketDay: Time -> bool)
    requires step > 0
    ensures WindowsFollowGrid(BarWindows(start, end, step, isMarketDay), MarketGrid(start, end, step, isMarketDay),
                              step, end)
    decreases end - start
  {
    if start < end {
      var ws, days := BarWindows(start, end, step, isMarketDay), MarketGrid(start, end, step, isMarketDay);
      var restWs, restDays := BarWindows(start + step, end, step, isMarketDay), MarketGrid(start + step, end, step, isMarketDay);
      if !isMarketDay(start) {
        BarWindowsOnMarketGrid(start + step, end, step, isMarketDay);
        assert ws == restWs && days == restDays;
      } else if start + step > end {
        assert restDays == [];
        assert ws == [Window(start, end)] && days == [start];
      } else {
        BarWindowsOnMarketGrid(start + step, end, step, isMarketDay);
        assert ws == [Window(start, start + step)] + restWs;
        assert days == [start] + restDays;
        forall i | 0 <= i < |ws| ensures ws[i] == Window(days[i], Min(days[i] + step, end)) {
          if i > 0 {
            assert ws[i] == restWs[i - 1] && days[i] == restDays[i - 1];
          }
        }
      }
    }
  }

  /**
   * The shape of the bar windows: each opens on a market day inside the
   * range, is no longer than the step, ends a step later or, when that would
   * pass `end`, exactly at `end`; windows come in increasing order and do
   * not overlap.
   */
  predicate WellShapedWindows(ws: seq<Window>, start: Time, end: Time, step: Duration, isMarketDay: Time -> bool)
  {
    && (forall i :: 0 <= i < |ws| ==>
          && isMarketDay(ws[i].from) && start <= ws[i].from < ws[i].to <= end
          && ws[i].to - ws[i].from <= step
          && (ws[i].from + step > end ==> ws[i].to == end)
          && (ws[i].from + step <= end ==> ws[i].to == ws[i].from + step))
    && (forall i, j :: 0 <= i < j < |ws| ==> ws[i].to <= ws[j].from)
  }

  lemma BarWindowsShape(start: Time, end: Time, step: Duration, isMarketDay: Time -> bool)
    requires step > 0
    ensures WellShapedWindows(BarWindows(start, end, step, isMarketDay), start, end, step, isMarketDay)
  {
    BarWindowsOnMarketGrid(start, end, step, isMarketDay);
    MarketGridSorted(start, end, step, isMarketDay);
  }

  /**
   * With a one-day step there is exactly one bar window per market day of
   * the daily walk, and it opens on that day.
   */
  ghost predicate OneWindowPerMarketDay(ws: seq<Window>, start: Time, end: Time, isMarketDay: Time -> bool)
  {
    && (forall k: nat :: GridPoint(start, Day, k) < end ==>
          (isMarketDay(GridPoint(start, Day, k)) <==>
           exists i :: 0 <= i < |ws| && ws[i].from == GridPoint(start, Day, k)))
    && (forall i, j :: 0 <= i < |ws| && 0 <= j < |ws| && ws[i].from == ws[j].from ==> i == j)
  }

  lemma DailyBarsOnePerMarketDay(start: Time, end: Time, isMarketDay: Time -> bool)
    ensures |BarWindows(start, end, Day, isMarketDay)| == |MarketGrid(start, end, Day, isMarketDay)|
    ensures OneWindowPerMarketDay(BarWindows(start, end, Day, isMarketDay), start, end, isMarketDay)
  {
    var ws, days := BarWindows(start, end, Day, isMarketDay), MarketGrid(start, end, Day, isMarketDay);
    BarWindowsOnMarketGrid(start, end, Day, isMarketDay);
    MarketGridSorted(start, end, Day, isMarketDay);
    forall k: nat | GridPoint(start, Day, k) < end && isMarketDay(GridPoint(start, Day, k))
      ensures exists i :: 0 <= i < |ws| && ws[i].from == GridPoint(start, Day, k)
    {
      MarketGridComplete(start, end, Day, isMarketDay, k);
      var i :| 0 <= i < |days| && days[i] == GridPoint(start, Day, k);
      assert ws[i].from == days[i];
    }
  }

  /**
   * A walk point on a closed day opens no window, and the walk then moves on
   * a whole step: no window opens before `start + step`, so the market days
   * inside the skipped step get no bars.
   */
  lemma BarsSkipClosedPeriod(start: Time, end: Time, step: Duration, isMarketDay: Time -> bool)
    requires step > 0
    requires !isMarketDay(start)
    ensures forall w :: w in BarWindows(start, end, step, isMarketDay) ==> start + step <= w.from
  {
    BarWindowsShape(start + step, end, step, isMarketDay);
  }

  /**
   * A 30-day step over 60 days whose first day alone is closed: one window,
   * the second period, and days 1 to 29 get no bars.
   */
  lemma ClosedFirstPeriodScenario()
    ensures BarWindows(0, 60 * Day, 30 * Day, d => d != 0) == [Window(30 * Day, 60 * Day)]
  {
    assert BarWindows(60 * Day, 60 * Day, 30 * Day, d => d != 0) == [];
    assert BarWindows(30 * Day, 60 * Day, 30 * Day, d => d != 0) == [Window(30 * Day, 60 * Day)];
  }

  /** The call made for one bar window: backfill.Bars without a filter, BuildBarsFromTrades with one. */
  function BarUnit(symbol: string, w: Window, exchangeIDs: seq<int>, batchSize: int): WorkUnit
  {
    if |exchangeIDs| == 0 then Bars(symbol, w.from, w.to)
    else BarsFromTrades(symbol, w.from, exchangeIDs, batchSize)
  }

  /** The calls of one symbol's bar goroutine. */
  function SymbolBarUnits(symbol: string, start: Time, end: Time, period: Duration,
                          exchangeIDs: seq<int>, batchSize: int, isMarketDay: Time -> bool): seq<WorkUnit>
    requires period > 0
  {
    var ws := BarWindows(start, end, BarStep(period, exchangeIDs), isMarketDay);
    seq(|ws|, i requires 0 <= i < |ws| => BarUnit(symbol, ws[i], exchangeIDs, batchSize))
  }

  /** The calls of one symbol's quote loop: one per market day d, for [d, d+24h). */
  function SymbolQuoteUnits(symbol: string, start: Time, end: Time, batchSize: int,
                            isMarketDay: Time -> bool): seq<WorkUnit>
  {
    QuoteCalls(symbol, MarketGrid(start, end, Day, isMarketDay), batchSize)
  }

  /** One 24-hour quote call per given day. */
  function QuoteCalls(symbol: string, days: seq<Time>, batchSize: int): seq<WorkUnit>
  {
    seq(|days|, i requires 0 <= i < |days| => Quotes(symbol, days[i], days[i] + Day, batchSize))
  }

  lemma QuoteCallsAppend(symbol: string, days: seq<Time>, here: seq<Time>, batchSize: int)
    ensures QuoteCalls(symbol, days + here, batchSize) ==
            QuoteCalls(symbol, days, batchSize) + QuoteCalls(symbol, here, batchSize)
  {
    var a, b := QuoteCalls(symbol, days, batchSize), QuoteCalls(symbol, here, batchSize);
    forall i | 0 <= i < |days + here| ensures QuoteCalls(symbol, days + here, batchSize)[i] == (a + b)[i] {
      if i >= |days| {
        assert (days + here)[i] == here[i - |days|];
      }
    }
  }

  /** The calls of one symbol's trade loop as written: one per market day, each given `end`. */
  function SymbolTradeUnits(symbol: string, start: Time, end: Time, batchSize: int,
                            isMarketDay: Time -> bool): seq<WorkUnit>
  {
    var days := MarketGrid(start, end, Day, isMarketDay);
    seq(|days|, i requires 0 <= i < |days| => Trades(symbol, end, batchSize))
  }

  /**
   * The bar goroutine of one symbol: walks [start, end) from `start`; on a
   * market day it cuts the step so as not to pass `end` and makes one call.
   */
  method EnumerateBars(symbol: string, start: Time, end: Time, period: Duration,
                       exchangeIDs: seq<int>, batchSize: int, isMarketDay: Time -> bool)
    returns (units: seq<WorkUnit>)
    requires period > 0
    ensures units == SymbolBarUnits(symbol, start, end, period, exchangeIDs, batchSize, isMarketDay)
  {
    units := [];
    var s, e := start, end;
    var addPeriod := period;
    if |exchangeIDs| != 0 && addPeriod != Day {
      addPeriod := Day;
    }
    ghost var step := addPeriod;
    ghost var done: seq<Window> := [];
    while e > s
      invariant step == BarStep(period, exchangeIDs) && addPeriod > 0
      invariant s < e ==> addPeriod == step
      invariant done + BarWindows(s, e, step, isMarketDay) == BarWindows(start, e, step, isMarketDay)
      invariant |units| == |done|
      invariant forall i :: 0 <= i < |done| ==> units[i] == BarUnit(symbol, done[i], exchangeIDs, batchSize)
      decreases e - s
    {
      if isMarketDay(s) {
        if s + addPeriod > e {
          addPeriod := e - s;
        }
        if |exchangeIDs| == 0 {
          units := units + [Bars(symbol, s, s + addPeriod)];
        } else {
          units := units + [BarsFromTrades(symbol, s, exchangeIDs, batchSize)];
        }
        done := done + [Window(s, s + addPeriod)];
      }
      s := s + addPeriod;
    }
  }

  /** The quote loop of one symbol. */
  method EnumerateQuotes(symbol: string, start: Time, end: Time, batchSize: int, isMarketDay: Time -> bool)
    returns (units: seq<WorkUnit>)
    ensures units == SymbolQuoteUnits(symbol, start, end, batchSize, isMarketDay)
  {
    units := [];
    var s, e := start, end;
    ghost var done: seq<Time> := [];
    while e > s
      invariant done + MarketGrid(s, e, Day, isMarketDay) == MarketGrid(start, e, Day, isMarketDay)
      invariant units == QuoteCalls(symbol, done, batchSize)
      decreases e - s
    {
      ghost var rest, here := MarketGrid(s + Day, e, Day, isMarketDay), if isMarketDay(s) then [s] else [];
      assert MarketGrid(s, e, Day, isMarketDay) == here + rest;
      assert (done + here) + rest == done + (here + rest);
      QuoteCallsAppend(symbol, done, here, batchSize);
      if isMarketDay(s) {
        units := units + [Quotes(symbol, s, s + Day, batchSize)];
      }
      done := done + here;
      s := s + Day;
    }
    assert done == MarketGrid(start, e, Day, isMarketDay);
  }

  /** The trade loop of one symbol as written: the call is handed `e`, not the day `s`. */
  method EnumerateTrades(symbol: string, start: Time, end: Time, batchSize: int, isMarketDay: Time -> bool)
    returns (units: seq<WorkUnit>)
    ensures units == SymbolTradeUnits(symbol, start, end, batchSize, isMarketDay)
  {
    units := [];
    var s, e := start, end;
    ghost var done: seq<Time> := [];
    while e > s
      invariant done + MarketGrid(s, e, Day, isMarketDay) == MarketGrid(start, e, Day, isMarketDay)
      invariant |units| == |done|
      invariant forall i :: 0 <= i < |done| ==> units[i] == Trades(symbol, e, batchSize)
      decreases e - s
    {
      ghost var rest, here := MarketGrid(s + Day, e, Day, isMarketDay), if isMarketDay(s) then [s] else [];
      assert MarketGrid(s, e, Day, isMarketDay) == here + rest;
      assert (done + here) + rest == done + (here + rest);
      if isMarketDay(s) {
        units := units + [Trades(symbol, e, batchSize)];
      }
      done := done + here;
      s := s + Day;
    }
    assert done == MarketGrid(start, e, Day, isMarketDay);
  }

  /** The calls of one symbol's trade loop when each call is handed the day it iterates. */
  function SymbolTradeUnitsPerDay(symbol: string, start: Time, end: Time, batchSize: int,
                                  isMarketDay: Time -> bool): seq<WorkUnit>
  {
    var days := MarketGrid(start, end, Day, isMarketDay);
    seq(|days|, i requires 0 <= i < |days| => Trades(symbol, days[i], batchSize))
  }

  /** The trade loop handing each call the day `s` it is iterating. */
  method EnumerateTradesPerDay(symbol: string, start: Time, end: Time, batchSize: int, isMarketDay: Time -> bool)
    returns (units: seq<WorkUnit>)
    ensures units == SymbolTradeUnitsPerDay(symbol, start, end, batchSize, isMarketDay)
  {
    units := [];
    var s, e := start, end;
    ghost var done: seq<Time> := [];
    while e > s
      invariant done + MarketGrid(s, e, Day, isMarketDay) == MarketGrid(start, e, Day, isMarketDay)
      invariant |units| == |done|
      invariant forall i :: 0 <= i < |done| ==> units[i] == Trades(symbol, done[i], batchSize)
      decreases e - s
    {
      ghost var rest, here := MarketGrid(s + Day, e, Day, isMarketDay), if isMarketDay(s) then [s] else [];
      assert MarketGrid(s, e, Day, isMarketDay) == here + rest;
      assert (done + here) + rest == done + (here + rest);
      if isMarketDay(s) {
        units := units + [Trades(symbol, s, batchSize)];
      }
      done := done + here;
      s := s + Day;
    }
    assert done == MarketGrid(start, e, Day, isMarketDay);
  }

  /**
   * With each call handed its day, the trade calls of a symbol are one per
   * market day of the range, on that day, in increasing order.
   */
  lemma TradesPerDayOnCalendar(symbol: string, start: Time, end: Time, batchSize: int, isMarketDay: Time -> bool)
    ensures |SymbolTradeUnitsPerDay(symbol, start, end, batchSize, isMarketDay)| ==
            |MarketGrid(start, end, Day, isMarketDay)|
    ensures forall i :: 0 <= i < |SymbolTradeUnitsPerDay(symbol, start, end, batchSize, isMarketDay)| ==>
      && SymbolTradeUnitsPerDay(symbol, start, end, batchSize, isMarketDay)[i].from < end
      && start <= SymbolTradeUnitsPerDay(symbol, start, end, batchSize, isMarketDay)[i].from
      && isMarketDay(SymbolTradeUnitsPerDay(symbol, start, end, batchSize, isMarketDay)[i].from)
    ensures forall i, j :: 0 <= i < j < |SymbolTradeUnitsPerDay(symbol, start, end, batchSize, isMarketDay)| ==>
      SymbolTradeUnitsPerDay(symbol, start, end, batchSize, isMarketDay)[i].from <
      SymbolTradeUnitsPerDay(symbol, start, end, batchSize, isMarketDay)[j].from
  {
    MarketGridSorted(start, end, Day, isMarketDay);
  }

  /**
   * A one-day range whose day is a market day and whose end is not: the
   * trade loop as written makes its one call for the non-market day `end`
   * and none for the market day.
   */
  lemma TradesAsWrittenOffCalendar(symbol: string, start: Time, batchSize: int, isMarketDay: Time -> bool)
    requires isMarketDay(start) && !isMarketDay(start + Day)
    ensures SymbolTradeUnits(symbol, start, start + Day, batchSize, isMarketDay) == [Trades(symbol, start + Day, batchSize)]
    ensures !isMarketDay(SymbolTradeUnits(symbol, start, start + Day, batchSize, isMarketDay)[0].from)
  {
    assert MarketGrid(start + Day, start + Day, Day, isMarketDay) == [];
    assert MarketGrid(start, start + Day, Day, isMarketDay) == [start];
  }
}
