/**
 * The planning logic of the backfiller's main: the configuration checks,
 * the exchange filter, the symbol list and the three enumeration phases,
 * which together give the sequence of backfill calls in dispatch order.
 */
module Backfiller {
  import opened Wrappers
  import opened GoStrings
  import opened Symbols
  import opened Schedule

  /** The command-line flags, with dates and the bar period already parsed. */
  datatype Config = Config(
    apiKey: string,
    start: Time,
    end: Time,
    barPeriod: Duration,
    exchanges: string,
    bars: bool,
    quotes: bool,
    trades: bool,
    batchSize: int)

  /** The fatal errors of the planning stage. */
  datatype Fatal = MissingApiKey | InvalidExchangeID(field: string)

  /** Parses the fields in order, stopping at the first one Atoi rejects. */
  function ParseFields(fields: seq<string>): Result<seq<int>, string>
  {
    if fields == [] then Ok([])
    else
      match ParseFields(fields[..|fields| - 1])
      case Err(bad) => Err(bad)
      case Ok(ids) =>
        match Atoi(fields[|fields| - 1])
        case Some(id) => Ok(ids + [id])
        case None => Err(fields[|fields| - 1])
  }

  /** The exchange filter: "*" is no filter, otherwise one ID per comma-separated field. */
  function ExchangeIDs(exchanges: string): Result<seq<int>, string>
  {
    if exchanges == "*" then Ok([]) else ParseFields(Split(exchanges, ','))
  }

  /** Exchange-ID parsing in main. */
  method ParseExchanges(exchanges: string) returns (r: Result<seq<int>, string>)
    ensures r == ExchangeIDs(exchanges)
  {
    var exchangeIDs: seq<int> := [];
    if exchanges != "*" {
      var fields := Split(exchanges, ',');
      for i := 0 to |fields|
        invariant ParseFields(fields[..i]) == Ok(exchangeIDs)
      {
        assert fields[..i + 1][..i] == fields[..i];
        var exchangeIDInt := Atoi(fields[i]);
        if exchangeIDInt.None? {
          assert ParseFields(fields[..i + 1]) == Err(fields[i]);
          ParseFieldsStopsAtError(fields, i + 1);
          return Err(fields[i]);
        }
        exchangeIDs := exchangeIDs + [exchangeIDInt.value];
      }
      assert fields[..|fields|] == fields;
    }
    return Ok(exchangeIDs);
  }

  /** Once a prefix of the fields fails, so do all the fields, with the same field. */
  lemma {:induction false} ParseFieldsStopsAtError(fields: seq<string>, n: nat)
    requires n <= |fields| && ParseFields(fields[..n]).Err?
    ensures ParseFields(fields) == ParseFields(fields[..n])
    decreases |fields| - n
  {
    if n < |fields| {
      assert fields[..n + 1][..n] == fields[..n];
      ParseFieldsStopsAtError(fields, n + 1);
    } else {
      assert fields[..n] == fields;
    }
  }

  /** ParseFields succeeds with one ID per field, in field order, exactly when every field parses. */
  lemma {:induction false} ParseFieldsOk(fields: seq<string>)
    ensures ParseFields(fields).Ok? <==> forall i :: 0 <= i < |fields| ==> Atoi(fields[i]).Some?
    ensures ParseFields(fields).Ok? ==>
      |ParseFields(fields).value| == |fields| &&
      forall i :: 0 <= i < |fields| ==> Atoi(fields[i]) == Some(ParseFields(fields).value[i])
    decreases |fields|
  {
    if fields != [] {
      var p := fields[..|fields| - 1];
      var last := fields[|fields| - 1];
      ParseFieldsOk(p);
      if ParseFields(p).Err? {
        var k :| 0 <= k < |p| && Atoi(p[k]).None?;
        assert fields[k] == p[k];
      } else if Atoi(last).None? {
        assert ParseFields(fields).Err?;
      } else {
        var ids := ParseFields(p).value;
        assert ParseFields(fields) == Ok(ids + [Atoi(last).value]);
        forall i | 0 <= i < |fields| ensures Atoi(fields[i]) == Some(ParseFields(fields).value[i]) {
          if i < |p| {
            assert fields[i] == p[i];
          }
        }
      }
    }
  }

  /** A failing ParseFields names the first field that does not parse. */
  lemma {:induction false} ParseFieldsFirstError(fields: seq<string>)
    requires ParseFields(fields).Err?
    ensures exists k ::
              && 0 <= k < |fields| && ParseFields(fields).error == fields[k] && Atoi(fields[k]).None?
              && (forall i :: 0 <= i < k ==> Atoi(fields[i]).Some?)
    decreases |fields|
  {
    var p := fields[..|fields| - 1];
    var last := fields[|fields| - 1];
    assert forall i :: 0 <= i < |p| ==> p[i] == fields[i];
    if ParseFields(p).Err? {
      ParseFieldsFirstError(p);
      var k :| 0 <= k < |p| && ParseFields(p).error == p[k] && Atoi(p[k]).None? &&
        forall i :: 0 <= i < k ==> Atoi(p[i]).Some?;
      assert ParseFields(fields).error == fields[k];
    } else {
      ParseFieldsOk(p);
      assert ParseFields(fields).error == fields[|p|];
    }
  }

  /**
   * The exchange filter: "*" gives no IDs; any other input gives one ID per
   * comma-separated field when all of them parse, so a non-empty list; a
   * field that does not parse is reported, and it is the first such field.
   */
  lemma ExchangeIDsMeaning(exchanges: string)
    ensures exchanges == "*" ==> ExchangeIDs(exchanges) == Ok([])
    ensures exchanges != "*" ==>
      (ExchangeIDs(exchanges).Ok? <==>
         forall i :: 0 <= i < |Split(exchanges, ',')| ==> Atoi(Split(exchanges, ',')[i]).Some?)
    ensures exchanges != "*" && ExchangeIDs(exchanges).Ok? ==>
      |ExchangeIDs(exchanges).value| == |Split(exchanges, ',')| > 0 &&
      forall i :: 0 <= i < |Split(exchanges, ',')| ==>
        Atoi(Split(exchanges, ',')[i]) == Some(ExchangeIDs(exchanges).value[i])
    ensures exchanges != "*" && ExchangeIDs(exchanges).Err? ==>
      exists k :: 0 <= k < |Split(exchanges, ',')| && ExchangeIDs(exchanges).error == Split(exchanges, ',')[k] &&
        Atoi(Split(exchanges, ',')[k]).None? &&
        (forall i :: 0 <= i < k ==> Atoi(Split(exchanges, ',')[i]).Some?)
  {
    if exchanges != "*" {
      var fields := Split(exchanges, ',');
      assert ExchangeIDs(exchanges) == ParseFields(fields);
      ParseFieldsOk(fields);
      if ParseFields(fields).Err? {
        ParseFieldsFirstError(fields);
        var k :| 0 <= k < |fields| && Atoi(fields[k]).None?;
        assert !Atoi(Split(exchanges, ',')[k]).Some?;
      }
    }
  }

  /** The exchange filter is empty exactly when the flag is "*". */
  lemma NoFilterIffStar(exchanges: string)
    requires ExchangeIDs(exchanges).Ok?
    ensures ExchangeIDs(exchanges).value == [] <==> exchanges == "*"
  {
    ExchangeIDsMeaning(exchanges);
  }

  /** The bar calls of all symbols, symbol by symbol, skipping the empty symbol. */
  function BarsPhase(symbols: seq<string>, start: Time, end: Time, period: Duration,
                     exchangeIDs: seq<int>, batchSize: int, isMarketDay: Time -> bool): seq<WorkUnit>
    requires period > 0
    decreases |symbols|
  {
    if symbols == [] then []
    else
      var sym := symbols[|symbols| - 1];
      BarsPhase(symbols[..|symbols| - 1], start, end, period, exchangeIDs, batchSize, isMarketDay) +
      (if sym == "" then [] else SymbolBarUnits(sym, start, end, period, exchangeIDs, batchSize, isMarketDay))
  }

  /** The quote calls of all symbols, the empty symbol included. */
  function QuotesPhase(symbols: seq<string>, start: Time, end: Time, batchSize: int,
                       isMarketDay: Time -> bool): seq<WorkUnit>
    decreases |symbols|
  {
    if symbols == [] then []
    else
      QuotesPhase(symbols[..|symbols| - 1], start, end, batchSize, isMarketDay) +
      SymbolQuoteUnits(symbols[|symbols| - 1], start, end, batchSize, isMarketDay)
  }

  /** The trade calls of all symbols, the empty symbol included. */
  function TradesPhase(symbols: seq<string>, start: Time, end: Time, batchSize: int,
                       isMarketDay: Time -> bool): seq<WorkUnit>
    decreases |symbols|
  {
    if symbols == [] then []
    else
      TradesPhase(symbols[..|symbols| - 1], start, end, batchSize, isMarketDay) +
      SymbolTradeUnits(symbols[|symbols| - 1], start, end, batchSize, isMarketDay)
  }

  /** The calls of the enabled phases, bars first, then quotes, then trades. */
  function PlanUnits(cfg: Config, period: Duration, symbols: seq<string>, exchangeIDs: seq<int>,
                     isMarketDay: Time -> bool): seq<WorkUnit>
    requires period > 0
  {
    (if cfg.bars then BarsPhase(symbols, cfg.start, cfg.end, period, exchangeIDs, cfg.batchSize, isMarketDay) else []) +
    (if cfg.quotes then QuotesPhase(symbols, cfg.start, cfg.end, cfg.batchSize, isMarketDay) else []) +
    (if cfg.trades then TradesPhase(symbols, cfg.start, cfg.end, cfg.batchSize, isMarketDay) else [])
  }

  /** What a run plans: a fatal error, or the calls it dispatches. */
  function PlanOf(cfg: Config, tickers: seq<string>, matches: string -> bool,
                  isMarketDay: Time -> bool): Result<seq<WorkUnit>, Fatal>
  {
    if cfg.apiKey == "" then Err(MissingApiKey)
    else
      match ExchangeIDs(cfg.exchanges)
      case Err(field) => Err(InvalidExchangeID(field))
      case Ok(ids) =>
        Ok(PlanUnits(cfg, ClampBarPeriod(cfg.barPeriod), SymbolList(tickers, matches), ids, isMarketDay))
  }

  /** The bars loop of main over the symbol list. */
  method EnumerateBarsPhase(symbolList: seq<string>, start: Time, end: Time, period: Duration,
                            exchangeIDs: seq<int>, batchSize: int, isMarketDay: Time -> bool)
    returns (units: seq<WorkUnit>)
    requires period > 0
    ensures units == BarsPhase(symbolList, start, end, period, exchangeIDs, batchSize, isMarketDay)
  {
    units := [];
    for i := 0 to |symbolList|
      invariant units == BarsPhase(symbolList[..i], start, end, period, exchangeIDs, batchSize, isMarketDay)
    {
      assert symbolList[..i + 1][..i] == symbolList[..i];
      var sym := symbolList[i];
      if sym == "" {
        continue;
      }
      var symUnits := EnumerateBars(sym, start, end, period, exchangeIDs, batchSize, isMarketDay);
      units := units + symUnits;
    }
    assert symbolList[..|symbolList|] == symbolList;
  }

  /** The quotes loop of main over the symbol list. */
  method EnumerateQuotesPhase(symbolList: seq<string>, start: Time, end: Time, batchSize: int,
                              isMarketDay: Time -> bool)
    returns (units: seq<WorkUnit>)
    ensures units == QuotesPhase(symbolList, start, end, batchSize, isMarketDay)
  {
    units := [];
    for i := 0 to |symbolList|
      invariant units == QuotesPhase(symbolList[..i], start, end, batchSize, isMarketDay)
    {
      assert symbolList[..i + 1][..i] == symbolList[..i];
      var symUnits := EnumerateQuotes(symbolList[i], start, end, batchSize, isMarketDay);
      units := units + symUnits;
    }
    assert symbolList[..|symbolList|] == symbolList;
  }

  /** The trades loop of main over the symbol list. */
  method EnumerateTradesPhase(symbolList: seq<string>, start: Time, end: Time, batchSize: int,
                              isMarketDay: Time -> bool)
    returns (units: seq<WorkUnit>)
    ensures units == TradesPhase(symbolList, start, end, batchSize, isMarketDay)
  {
    units := [];
    for i := 0 to |symbolList|
      invariant units == TradesPhase(symbolList[..i], start, end, batchSize, isMarketDay)
    {
      assert symbolList[..i + 1][..i] == symbolList[..i];
      var symUnits := EnumerateTrades(symbolList[i], start, end, batchSize, isMarketDay);
      units := units + symUnits;
    }
    assert symbolList[..|symbolList|] == symbolList;
  }

  /**
   * main without its I/O: checks the API key, clamps the bar period, builds
   * the symbol list, parses the exchange filter and runs the enabled loops.
   */
  method Plan(cfg: Config, tickers: seq<string>, matches: string -> bool, isMarketDay: Time -> bool)
    returns (r: Result<seq<WorkUnit>, Fatal>)
    ensures r == PlanOf(cfg, tickers, matches, isMarketDay)
  {
    if cfg.apiKey == "" {
      return Err(MissingApiKey);
    }
    var barPeriodDuration := ClampBarPeriod(cfg.barPeriod);
    var symbolList := SelectSymbols(tickers, matches);
    var parsed := ParseExchanges(cfg.exchanges);
    if parsed.Err? {
      return Err(InvalidExchangeID(parsed.error));
    }
    var exchangeIDs := parsed.value;
    var barUnits, quoteUnits, tradeUnits := [], [], [];
    if cfg.bars {
      barUnits := EnumerateBarsPhase(symbolList, cfg.start, cfg.end, barPeriodDuration,
                                     exchangeIDs, cfg.batchSize, isMarketDay);
    }
    if cfg.quotes {
      quoteUnits := EnumerateQuotesPhase(symbolList, cfg.start, cfg.end, cfg.batchSize, isMarketDay);
    }
    if cfg.trades {
      tradeUnits := EnumerateTradesPhase(symbolList, cfg.start, cfg.end, cfg.batchSize, isMarketDay);
    }
    return Ok(barUnits + quoteUnits + tradeUnits);
  }

  /** A run stops with a fatal error exactly when the API key is missing or an exchange field does not parse. */
  lemma PlanFatalErrors(cfg: Config, tickers: seq<string>, matches: string -> bool, isMarketDay: Time -> bool)
    ensures cfg.apiKey == "" ==> PlanOf(cfg, tickers, matches, isMarketDay) == Err(MissingApiKey)
    ensures PlanOf(cfg, tickers, matches, isMarketDay).Err? <==>
      cfg.apiKey == "" ||
      (cfg.exchanges != "*" &&
       exists k :: 0 <= k < |Split(cfg.exchanges, ',')| && Atoi(Split(cfg.exchanges, ',')[k]).None?)
    ensures cfg.apiKey != "" && PlanOf(cfg, tickers, matches, isMarketDay).Err? ==>
      exists k :: 0 <= k < |Split(cfg.exchanges, ',')| &&
        PlanOf(cfg, tickers, matches, isMarketDay) == Err(InvalidExchangeID(Split(cfg.exchanges, ',')[k])) &&
        Atoi(Split(cfg.exchanges, ',')[k]).None?
  {
    ExchangeIDsMeaning(cfg.exchanges);
  }

  /** Bar calls only, for non-empty symbols of the list, each opening on a market day inside [start, end). */
  predicate BarCallsOnCalendar(units: seq<WorkUnit>, symbols: seq<string>, start: Time, end: Time,
                               isMarketDay: Time -> bool)
  {
    forall i :: 0 <= i < |units| ==>
      && (units[i].Bars? || units[i].BarsFromTrades?)
      && units[i].symbol != "" && units[i].symbol in symbols
      && start <= units[i].from < end && isMarketDay(units[i].from)
  }

  /** Quote calls only, for symbols of the list, each for [d, d+24h) with d a market day inside [start, end). */
  predicate QuoteCallsOnCalendar(units: seq<WorkUnit>, symbols: seq<string>, start: Time, end: Time,
                                 isMarketDay: Time -> bool)
  {
    forall i :: 0 <= i < |units| ==>
      && units[i].Quotes? && units[i].symbol in symbols
      && start <= units[i].from < end && isMarketDay(units[i].from) && units[i].to == units[i].from + Day
  }

  /** Trade calls only, for symbols of the list, each handed `end`. */
  predicate TradeCallsAtEnd(units: seq<WorkUnit>, symbols: seq<string>, end: Time)
  {
    forall i :: 0 <= i < |units| ==> units[i].Trades? && units[i].symbol in symbols && units[i].from == end
  }

  /** The bar phase makes no call for the empty symbol and opens every window on a market day. */
  lemma {:induction false} BarsPhaseOnCalendar(symbols: seq<string>, start: Time, end: Time, period: Duration,
                                               exchangeIDs: seq<int>, batchSize: int, isMarketDay: Time -> bool)
    requires period > 0
    ensures BarCallsOnCalendar(BarsPhase(symbols, start, end, period, exchangeIDs, batchSize, isMarketDay),
                               symbols, start, end, isMarketDay)
    decreases |symbols|
  {
    if symbols != [] {
      var p := symbols[..|symbols| - 1];
      var sym := symbols[|symbols| - 1];
      var step := BarStep(period, exchangeIDs);
      var prev := BarsPhase(p, start, end, period, exchangeIDs, batchSize, isMarketDay);
      var mine := if sym == "" then [] else SymbolBarUnits(sym, start, end, period, exchangeIDs, batchSize, isMarketDay);
      BarsPhaseOnCalendar(p, start, end, period, exchangeIDs, batchSize, isMarketDay);
      BarWindowsShape(start, end, step, isMarketDay);
      var ws := BarWindows(start, end, step, isMarketDay);
      assert forall i :: 0 <= i < |ws| ==> isMarketDay(ws[i].from) && start <= ws[i].from < end;
      assert BarCallsOnCalendar(mine, symbols, start, end, isMarketDay);
      assert forall x :: x in p ==> x in symbols;
      assert BarCallsOnCalendar(prev, symbols, start, end, isMarketDay);
      BarCallsOnCalendarAppend(prev, mine, symbols, start, end, isMarketDay);
    }
  }

  lemma BarCallsOnCalendarAppend(a: seq<WorkUnit>, b: seq<WorkUnit>, symbols: seq<string>, start: Time, end: Time,
                                 isMarketDay: Time -> bool)
    requires BarCallsOnCalendar(a, symbols, start, end, isMarketDay)
    requires BarCallsOnCalendar(b, symbols, start, end, isMarketDay)
    ensures BarCallsOnCalendar(a + b, symbols, start, end, isMarketDay)
  {
    forall i | 0 <= i < |a + b| ensures (a + b)[i] == if i < |a| then a[i] else b[i - |a|] {}
  }

  /** The quote phase opens every call on a market day of the range and covers that day. */
  lemma {:induction false} QuotesPhaseOnCalendar(symbols: seq<string>, start: Time, end: Time, batchSize: int,
                                                 isMarketDay: Time -> bool)
    ensures QuoteCallsOnCalendar(QuotesPhase(symbols, start, end, batchSize, isMarketDay),
                                 symbols, start, end, isMarketDay)
    decreases |symbols|
  {
    if symbols != [] {
      var p := symbols[..|symbols| - 1];
      var sym := symbols[|symbols| - 1];
      var prev := QuotesPhase(p, start, end, batchSize, isMarketDay);
      var mine := SymbolQuoteUnits(sym, start, end, batchSize, isMarketDay);
      QuotesPhaseOnCalendar(p, start, end, batchSize, isMarketDay);
      MarketGridSorted(start, end, Day, isMarketDay);
      assert QuoteCallsOnCalendar(mine, symbols, start, end, isMarketDay);
      assert forall x :: x in p ==> x in symbols;
      assert QuoteCallsOnCalendar(prev, symbols, start, end, isMarketDay);
      var all := prev + mine;
      forall i | 0 <= i < |all| ensures all[i] == if i < |prev| then prev[i] else mine[i - |prev|] {}
    }
  }

  /** The trade phase as written hands every call `end`. */
  lemma {:induction false} TradesPhaseAtEnd(symbols: seq<string>, start: Time, end: Time, batchSize: int,
                                            isMarketDay: Time -> bool)
    ensures TradeCallsAtEnd(TradesPhase(symbols, start, end, batchSize, isMarketDay), symbols, end)
    decreases |symbols|
  {
    if symbols != [] {
      var p := symbols[..|symbols| - 1];
      var sym := symbols[|symbols| - 1];
      var prev := TradesPhase(p, start, end, batchSize, isMarketDay);
      var mine := SymbolTradeUnits(sym, start, end, batchSize, isMarketDay);
      TradesPhaseAtEnd(p, start, end, batchSize, isMarketDay);
      assert forall x :: x in p ==> x in symbols;
      assert TradeCallsAtEnd(prev, symbols, end);
      var all := prev + mine;
      forall i | 0 <= i < |all| ensures all[i] == if i < |prev| then prev[i] else mine[i - |prev|] {}
    }
  }

  /** A run that passes its checks plans the calls of the enabled phases over the symbol list. */
  lemma PlanOfOk(cfg: Config, tickers: seq<string>, matches: string -> bool, isMarketDay: Time -> bool)
    requires PlanOf(cfg, tickers, matches, isMarketDay).Ok?
    ensures cfg.apiKey != "" && ExchangeIDs(cfg.exchanges).Ok?
    ensures PlanOf(cfg, tickers, matches, isMarketDay).value ==
      PlanUnits(cfg, ClampBarPeriod(cfg.barPeriod), SymbolList(tickers, matches),
                ExchangeIDs(cfg.exchanges).value, isMarketDay)
  {
  }

  /** The calls of a plan: bar and quote calls on market days of the range, trade calls handed `end`. */
  predicate PlanCallsOnCalendar(units: seq<WorkUnit>, cfg: Config, tickers: seq<string>, matches: string -> bool,
                                isMarketDay: Time -> bool)
  {
    forall i :: 0 <= i < |units| ==>
      && (units[i].Trades? ==> units[i].from == cfg.end)
      && (!units[i].Trades? ==> cfg.start <= units[i].from < cfg.end && isMarketDay(units[i].from))
      && ((units[i].Bars? || units[i].BarsFromTrades?) ==> units[i].symbol != "")
      && (units[i].symbol != "" ==> units[i].symbol in tickers && matches(units[i].symbol))
  }

  /**
   * Every planned bar or quote call opens on a market day inside the range,
   * no bar call is for the empty symbol, every other symbol is a matching
   * listed ticker, and every trade call is handed the end of the range.
   */
  lemma PlanOnCalendar(cfg: Config, tickers: seq<string>, matches: string -> bool, isMarketDay: Time -> bool)
    requires PlanOf(cfg, tickers, matches, isMarketDay).Ok?
    ensures PlanCallsOnCalendar(PlanOf(cfg, tickers, matches, isMarketDay).value, cfg, tickers, matches, isMarketDay)
  {
    PlanOfOk(cfg, tickers, matches, isMarketDay);
    var ids := ExchangeIDs(cfg.exchanges).value;
    var period := ClampBarPeriod(cfg.barPeriod);
    var symbols := SymbolList(tickers, matches);
    var bars := if cfg.bars then BarsPhase(symbols, cfg.start, cfg.end, period, ids, cfg.batchSize, isMarketDay) else [];
    var quotes := if cfg.quotes then QuotesPhase(symbols, cfg.start, cfg.end, cfg.batchSize, isMarketDay) else [];
    var trades := if cfg.trades then TradesPhase(symbols, cfg.start, cfg.end, cfg.batchSize, isMarketDay) else [];
    assert PlanOf(cfg, tickers, matches, isMarketDay).value == bars + quotes + trades;
    SymbolListMembers(tickers, matches);
    BarsPhaseOnCalendar(symbols, cfg.start, cfg.end, period, ids, cfg.batchSize, isMarketDay);
    QuotesPhaseOnCalendar(symbols, cfg.start, cfg.end, cfg.batchSize, isMarketDay);
    TradesPhaseAtEnd(symbols, cfg.start, cfg.end, cfg.batchSize, isMarketDay);
    PhasesOnCalendar(bars, quotes, trades, symbols, cfg, tickers, matches, isMarketDay);
  }

  /** Every non-empty entry of the symbol list is a matching listed ticker. */
  lemma SymbolListMembers(tickers: seq<string>, matches: string -> bool)
    ensures forall x :: x in SymbolList(tickers, matches) && x != "" ==> x in tickers && matches(x)
  {
    var symbols := SymbolList(tickers, matches);
    SymbolListShape(tickers, matches);
    forall x | x in symbols && x != "" ensures x in tickers && matches(x) {
      var i :| 0 <= i < |symbols| && symbols[i] == x;
    }
  }

  /** The three phases, each on the calendar, make a plan on the calendar. */
  lemma PhasesOnCalendar(bars: seq<WorkUnit>, quotes: seq<WorkUnit>, trades: seq<WorkUnit>, symbols: seq<string>,
                         cfg: Config, tickers: seq<string>, matches: string -> bool, isMarketDay: Time -> bool)
    requires forall x :: x in symbols && x != "" ==> x in tickers && matches(x)
    requires BarCallsOnCalendar(bars, symbols, cfg.start, cfg.end, isMarketDay)
    requires QuoteCallsOnCalendar(quotes, symbols, cfg.start, cfg.end, isMarketDay)
    requires TradeCallsAtEnd(trades, symbols, cfg.end)
    ensures PlanCallsOnCalendar(bars + quotes + trades, cfg, tickers, matches, isMarketDay)
  {
    assert PlanCallsOnCalendar(bars, cfg, tickers, matches, isMarketDay);
    assert PlanCallsOnCalendar(quotes, cfg, tickers, matches, isMarketDay);
    assert PlanCallsOnCalendar(trades, cfg, tickers, matches, isMarketDay);
    PlanCallsAppend(bars, quotes, cfg, tickers, matches, isMarketDay);
    PlanCallsAppend(bars + quotes, trades, cfg, tickers, matches, isMarketDay);
  }

  lemma PlanCallsAppend(a: seq<WorkUnit>, b: seq<WorkUnit>, cfg: Config, tickers: seq<string>,
                        matches: string -> bool, isMarketDay: Time -> bool)
    requires PlanCallsOnCalendar(a, cfg, tickers, matches, isMarketDay)
    requires PlanCallsOnCalendar(b, cfg, tickers, matches, isMarketDay)
    ensures PlanCallsOnCalendar(a + b, cfg, tickers, matches, isMarketDay)
  {
    forall i | 0 <= i < |a + b| ensures (a + b)[i] == if i < |a| then a[i] else b[i - |a|] {}
  }

  /** Every symbol of the list, the empty one included, gets its quote calls. */
  lemma {:induction false} QuotesPhaseCovers(symbols: seq<string>, start: Time, end: Time, batchSize: int,
                                             isMarketDay: Time -> bool, sym: string)
    requires sym in symbols
    ensures forall u :: u in SymbolQuoteUnits(sym, start, end, batchSize, isMarketDay) ==>
      u in QuotesPhase(symbols, start, end, batchSize, isMarketDay)
    decreases |symbols|
  {
    var p := symbols[..|symbols| - 1];
    assert symbols == p + [symbols[|symbols| - 1]];
    if sym != symbols[|symbols| - 1] {
      QuotesPhaseCovers(p, start, end, batchSize, isMarketDay, sym);
    }
  }

  /** Every symbol of the list, the empty one included, gets its trade calls. */
  lemma {:induction false} TradesPhaseCovers(symbols: seq<string>, start: Time, end: Time, batchSize: int,
                                             isMarketDay: Time -> bool, sym: string)
    requires sym in symbols
    ensures forall u :: u in SymbolTradeUnits(sym, start, end, batchSize, isMarketDay) ==>
      u in TradesPhase(symbols, start, end, batchSize, isMarketDay)
    decreases |symbols|
  {
    var p := symbols[..|symbols| - 1];
    assert symbols == p + [symbols[|symbols| - 1]];
    if sym != symbols[|symbols| - 1] {
      TradesPhaseCovers(p, start, end, batchSize, isMarketDay, sym);
    }
  }

  /**
   * The bar loop skips the seeded empty symbol but the quote and trade loops
   * do not: on a range with a market day, quotes and trades are requested
   * for the empty symbol.
   */
  lemma EmptySymbolQuotedAndTraded(cfg: Config, tickers: seq<string>, matches: string -> bool,
                                   isMarketDay: Time -> bool)
    requires PlanOf(cfg, tickers, matches, isMarketDay).Ok?
    requires MarketGrid(cfg.start, cfg.end, Day, isMarketDay) != []
    ensures cfg.quotes ==>
      exists i ::
        && 0 <= i < |PlanOf(cfg, tickers, matches, isMarketDay).value|
        && PlanOf(cfg, tickers, matches, isMarketDay).value[i].Quotes?
        && PlanOf(cfg, tickers, matches, isMarketDay).value[i].symbol == ""
    ensures cfg.trades ==>
      exists i ::
        && 0 <= i < |PlanOf(cfg, tickers, matches, isMarketDay).value|
        && PlanOf(cfg, tickers, matches, isMarketDay).value[i].Trades?
        && PlanOf(cfg, tickers, matches, isMarketDay).value[i].symbol == ""
    ensures forall i ::
      && 0 <= i < |PlanOf(cfg, tickers, matches, isMarketDay).value|
      && (PlanOf(cfg, tickers, matches, isMarketDay).value[i].Bars? ||
          PlanOf(cfg, tickers, matches, isMarketDay).value[i].BarsFromTrades?)
      ==> PlanOf(cfg, tickers, matches, isMarketDay).value[i].symbol != ""
  {
    PlanOnCalendar(cfg, tickers, matches, isMarketDay);
    PlanOfOk(cfg, tickers, matches, isMarketDay);
    SymbolListShape(tickers, matches);
    var symbols := SymbolList(tickers, matches);
    assert symbols[0] == "";
    var ids := ExchangeIDs(cfg.exchanges).value;
    var period := ClampBarPeriod(cfg.barPeriod);
    if cfg.quotes {
      PlanUnitsQuoteEmpty(cfg, period, symbols, ids, isMarketDay);
    }
    if cfg.trades {
      PlanUnitsTradeEmpty(cfg, period, symbols, ids, isMarketDay);
    }
  }

  lemma PlanUnitsQuoteEmpty(cfg: Config, period: Duration, symbols: seq<string>, exchangeIDs: seq<int>,
                            isMarketDay: Time -> bool)
    requires period > 0 && cfg.quotes && "" in symbols && MarketGrid(cfg.start, cfg.end, Day, isMarketDay) != []
    ensures exists i ::
      && 0 <= i < |PlanUnits(cfg, period, symbols, exchangeIDs, isMarketDay)|
      && PlanUnits(cfg, period, symbols, exchangeIDs, isMarketDay)[i].Quotes?
      && PlanUnits(cfg, period, symbols, exchangeIDs, isMarketDay)[i].symbol == ""
  {
    var units := PlanUnits(cfg, period, symbols, exchangeIDs, isMarketDay);
    var bars := if cfg.bars then BarsPhase(symbols, cfg.start, cfg.end, period, exchangeIDs, cfg.batchSize, isMarketDay)
                else [];
    var quotes := QuotesPhase(symbols, cfg.start, cfg.end, cfg.batchSize, isMarketDay);
    var trades := if cfg.trades then TradesPhase(symbols, cfg.start, cfg.end, cfg.batchSize, isMarketDay) else [];
    assert units == bars + quotes + trades;
    var j := EmptySymbolQuoted(symbols, cfg.start, cfg.end, cfg.batchSize, isMarketDay);
    assert units[|bars| + j] == quotes[j];
  }

  lemma PlanUnitsTradeEmpty(cfg: Config, period: Duration, symbols: seq<string>, exchangeIDs: seq<int>,
                            isMarketDay: Time -> bool)
    requires period > 0 && cfg.trades && "" in symbols && MarketGrid(cfg.start, cfg.end, Day, isMarketDay) != []
    ensures exists i ::
      && 0 <= i < |PlanUnits(cfg, period, symbols, exchangeIDs, isMarketDay)|
      && PlanUnits(cfg, period, symbols, exchangeIDs, isMarketDay)[i].Trades?
      && PlanUnits(cfg, period, symbols, exchangeIDs, isMarketDay)[i].symbol == ""
  {
    var units := PlanUnits(cfg, period, symbols, exchangeIDs, isMarketDay);
    var bars := if cfg.bars then BarsPhase(symbols, cfg.start, cfg.end, period, exchangeIDs, cfg.batchSize, isMarketDay)
                else [];
    var quotes := if cfg.quotes then QuotesPhase(symbols, cfg.start, cfg.end, cfg.batchSize, isMarketDay) else [];
    var trades := TradesPhase(symbols, cfg.start, cfg.end, cfg.batchSize, isMarketDay);
    assert units == bars + quotes + trades;
    var j := EmptySymbolTraded(symbols, cfg.start, cfg.end, cfg.batchSize, isMarketDay);
    assert units[|bars| + |quotes| + j] == trades[j];
  }

  /** The quote phase of a list holding the empty symbol has a quote call for it, at index j. */
  lemma EmptySymbolQuoted(symbols: seq<string>, start: Time, end: Time, batchSize: int, isMarketDay: Time -> bool)
    returns (j: nat)
    requires "" in symbols && MarketGrid(start, end, Day, isMarketDay) != []
    ensures j < |QuotesPhase(symbols, start, end, batchSize, isMarketDay)|
    ensures QuotesPhase(symbols, start, end, batchSize, isMarketDay)[j].Quotes?
    ensures QuotesPhase(symbols, start, end, batchSize, isMarketDay)[j].symbol == ""
  {
    var quotes := QuotesPhase(symbols, start, end, batchSize, isMarketDay);
    var u := SymbolQuoteUnits("", start, end, batchSize, isMarketDay)[0];
    QuotesPhaseCovers(symbols, start, end, batchSize, isMarketDay, "");
    assert u in quotes;
    j :| 0 <= j < |quotes| && quotes[j] == u;
  }

  /** The trade phase of a list holding the empty symbol has a trade call for it, at index j. */
  lemma EmptySymbolTraded(symbols: seq<string>, start: Time, end: Time, batchSize: int, isMarketDay: Time -> bool)
    returns (j: nat)
    requires "" in symbols && MarketGrid(start, end, Day, isMarketDay) != []
    ensures j < |TradesPhase(symbols, start, end, batchSize, isMarketDay)|
    ensures TradesPhase(symbols, start, end, batchSize, isMarketDay)[j].Trades?
    ensures TradesPhase(symbols, start, end, batchSize, isMarketDay)[j].symbol == ""
  {
    var trades := TradesPhase(symbols, start, end, batchSize, isMarketDay);
    var u := SymbolTradeUnits("", start, end, batchSize, isMarketDay)[0];
    TradesPhaseCovers(symbols, start, end, batchSize, isMarketDay, "");
    assert u in trades;
    j :| 0 <= j < |trades| && trades[j] == u;
  }

  /**
   * With an exchange filter the bars of a symbol are built from trades, one
   * call per market day of the daily walk, whatever the configured period.
   */
  lemma FilteredBarsDaily(symbol: string, start: Time, end: Time, period: Duration,
                          exchangeIDs: seq<int>, batchSize: int, isMarketDay: Time -> bool)
    requires period > 0 && |exchangeIDs| > 0
    ensures |SymbolBarUnits(symbol, start, end, period, exchangeIDs, batchSize, isMarketDay)| ==
            |MarketGrid(start, end, Day, isMarketDay)|
    ensures forall i :: 0 <= i < |SymbolBarUnits(symbol, start, end, period, exchangeIDs, batchSize, isMarketDay)| ==>
      SymbolBarUnits(symbol, start, end, period, exchangeIDs, batchSize, isMarketDay)[i] ==
      BarsFromTrades(symbol, MarketGrid(start, end, Day, isMarketDay)[i], exchangeIDs, batchSize)
  {
    BarWindowsOnMarketGrid(start, end, Day, isMarketDay);
  }

  /** The number of non-empty symbols. */
  function CountNonEmpty(symbols: seq<string>): nat
  {
    if symbols == [] then 0
    else CountNonEmpty(symbols[..|symbols| - 1]) + (if symbols[|symbols| - 1] == "" then 0 else 1)
  }

  lemma {:induction false} BarsPhaseSize(symbols: seq<string>, start: Time, end: Time, period: Duration,
                                         exchangeIDs: seq<int>, batchSize: int, isMarketDay: Time -> bool)
    requires period > 0
    ensures |BarsPhase(symbols, start, end, period, exchangeIDs, batchSize, isMarketDay)| ==
      CountNonEmpty(symbols) * |BarWindows(start, end, BarStep(period, exchangeIDs), isMarketDay)|
    decreases |symbols|
  {
    if symbols != [] {
      var p, last := symbols[..|symbols| - 1], symbols[|symbols| - 1];
      var c := |BarWindows(start, end, BarStep(period, exchangeIDs), isMarketDay)|;
      BarsPhaseSize(p, start, end, period, exchangeIDs, batchSize, isMarketDay);
      assert BarsPhase(symbols, start, end, period, exchangeIDs, batchSize, isMarketDay) ==
        BarsPhase(p, start, end, period, exchangeIDs, batchSize, isMarketDay) +
        (if last == "" then [] else SymbolBarUnits(last, start, end, period, exchangeIDs, batchSize, isMarketDay));
      if last != "" {
        assert |SymbolBarUnits(last, start, end, period, exchangeIDs, batchSize, isMarketDay)| == c;
        MulSucc(CountNonEmpty(p), c);
      }
    }
  }

  /** One more factor of `c`; kept apart so the product step does not meet the phase terms. */
  lemma MulSucc(a: nat, c: nat)
    ensures (a + 1) * c == a * c + c
  {
  }

  lemma {:induction false} QuotesPhaseSize(symbols: seq<string>, start: Time, end: Time, batchSize: int,
                                           isMarketDay: Time -> bool)
    ensures |QuotesPhase(symbols, start, end, batchSize, isMarketDay)| ==
      |symbols| * |MarketGrid(start, end, Day, isMarketDay)|
    decreases |symbols|
  {
    if symbols != [] {
      var p := symbols[..|symbols| - 1];
      var c := |MarketGrid(start, end, Day, isMarketDay)|;
      QuotesPhaseSize(p, start, end, batchSize, isMarketDay);
      assert (|p| + 1) * c == |p| * c + c;
    }
  }

  lemma {:induction false} TradesPhaseSize(symbols: seq<string>, start: Time, end: Time, batchSize: int,
                                           isMarketDay: Time -> bool)
    ensures |TradesPhase(symbols, start, end, batchSize, isMarketDay)| ==
      |symbols| * |MarketGrid(start, end, Day, isMarketDay)|
    decreases |symbols|
  {
    if symbols != [] {
      var p := symbols[..|symbols| - 1];
      var c := |MarketGrid(start, end, Day, isMarketDay)|;
      TradesPhaseSize(p, start, end, batchSize, isMarketDay);
      assert (|p| + 1) * c == |p| * c + c;
    }
  }

  /** Only the seeded entry of the symbol list is empty. */
  lemma {:induction false} CountNonEmptyOfSymbolList(tickers: seq<string>, matches: string -> bool)
    ensures CountNonEmpty(SymbolList(tickers, matches)) == |SymbolList(tickers, matches)| - 1
  {
    var list := SymbolList(tickers, matches);
    SymbolListShape(tickers, matches);
    CountNonEmptyTail(list);
  }

  lemma {:induction false} CountNonEmptyTail(list: seq<string>)
    requires |list| >= 1 && list[0] == ""
    requires forall i :: 1 <= i < |list| ==> list[i] != ""
    ensures CountNonEmpty(list) == |list| - 1
    decreases |list|
  {
    if |list| > 1 {
      CountNonEmptyTail(list[..|list| - 1]);
    }
  }

  /**
   * The size of a plan: one bar window sequence per non-empty symbol, one
   * quote and one trade call per market day for every symbol, the empty one
   * included.
   */
  lemma PlanSize(cfg: Config, tickers: seq<string>, matches: string -> bool, isMarketDay: Time -> bool)
    requires PlanOf(cfg, tickers, matches, isMarketDay).Ok?
    ensures |PlanOf(cfg, tickers, matches, isMarketDay).value| ==
      (if cfg.bars then
         (|SymbolList(tickers, matches)| - 1) *
         |BarWindows(cfg.start, cfg.end, BarStep(ClampBarPeriod(cfg.barPeriod), ExchangeIDs(cfg.exchanges).value),
                     isMarketDay)|
       else 0) +
      (if cfg.quotes then |SymbolList(tickers, matches)| * |MarketGrid(cfg.start, cfg.end, Day, isMarketDay)| else 0) +
      (if cfg.trades then |SymbolList(tickers, matches)| * |MarketGrid(cfg.start, cfg.end, Day, isMarketDay)| else 0)
  {
    PlanOfOk(cfg, tickers, matches, isMarketDay);
    var symbols := SymbolList(tickers, matches);
    var ids := ExchangeIDs(cfg.exchanges).value;
    var period := ClampBarPeriod(cfg.barPeriod);
    CountNonEmptyOfSymbolList(tickers, matches);
    BarsPhaseSize(symbols, cfg.start, cfg.end, period, ids, cfg.batchSize, isMarketDay);
    QuotesPhaseSize(symbols, cfg.start, cfg.end, cfg.batchSize, isMarketDay);
    TradesPhaseSize(symbols, cfg.start, cfg.end, cfg.batchSize, isMarketDay);
  }

  /** The calendar of the scenario below: of the first five days, the third and fourth are closed. */
  function ScenarioCalendar(d: Time): bool
  {
    d != 2 * Day && d != 3 * Day
  }

  lemma ScenarioSymbols()
    ensures SymbolList(["AAPL", "MSFT", "TSLA"], _ => true) == ["", "AAPL", "MSFT", "TSLA"]
  {
    var tickers := ["AAPL", "MSFT", "TSLA"];
    var matches: string -> bool := _ => true;
    assert tickers[..1] == ["AAPL"];
    assert tickers[..2] == ["AAPL", "MSFT"];
    assert tickers[..2][..1] == ["AAPL"];
    assert MatchingTickers(tickers[..1], matches) == ["AAPL"];
    assert MatchingTickers(tickers[..2], matches) == ["AAPL", "MSFT"];
    assert MatchingTickers(tickers, matches) == tickers;
    var candidates := ["", "AAPL", "MSFT", "TSLA"];
    assert [""] + tickers == candidates;
    assert NoDuplicates(candidates);
    FirstOccurrencesOfDistinct(candidates);
  }

  lemma ScenarioMarketDays()
    ensures MarketGrid(0, 5 * Day, Day, ScenarioCalendar) == [0, Day, 4 * Day]
  {
    assert MarketGrid(5 * Day, 5 * Day, Day, ScenarioCalendar) == [];
    assert MarketGrid(4 * Day, 5 * Day, Day, ScenarioCalendar) == [4 * Day];
    assert MarketGrid(3 * Day, 5 * Day, Day, ScenarioCalendar) == [4 * Day];
    assert MarketGrid(2 * Day, 5 * Day, Day, ScenarioCalendar) == [4 * Day];
    assert MarketGrid(Day, 5 * Day, Day, ScenarioCalendar) == [Day, 4 * Day];
  }

  /**
   * Three listed symbols, a five-day range of which two days are not market
   * days, bars only with the default one-day period and no exchange filter:
   * nine bar calls, one per symbol and market day.
   */
  lemma ThreeSymbolsThreeMarketDays()
    ensures PlanOf(Config("key", 0, 5 * Day, Day, "*", true, false, false, 50000), ["AAPL", "MSFT", "TSLA"],
                   _ => true, ScenarioCalendar).Ok?
    ensures |PlanOf(Config("key", 0, 5 * Day, Day, "*", true, false, false, 50000), ["AAPL", "MSFT", "TSLA"],
                    _ => true, ScenarioCalendar).value| == 9
  {
    var cfg := Config("key", 0, 5 * Day, Day, "*", true, false, false, 50000);
    ScenarioSymbols();
    ScenarioMarketDays();
    BarWindowsOnMarketGrid(0, 5 * Day, Day, ScenarioCalendar);
    assert ExchangeIDs("*") == Ok([]);
    assert BarStep(ClampBarPeriod(Day), []) == Day;
    PlanSize(cfg, ["AAPL", "MSFT", "TSLA"], _ => true, ScenarioCalendar);
  }
}
