# Polygon backfiller: work-unit planning

This project models the planning part of MarketStore's Polygon backfiller
(`contrib/polygon/backfill/backfiller/backfiller.go`). The backfiller is a
command-line program. It decides which symbols to fetch and which bars, quotes
and trades requests to send to Polygon. Each quote or trade call, and each
symbol's whole bar walk, is handed to a goroutine, at most `parallelism` at a
time. The model covers the decisions that shape the work:

- the bar-period clamp to the range [24h, 60 days];
- the symbol list: it starts with one empty symbol, appends the tickers that
  match the glob pattern, and drops repeated symbols with `unique`, which keeps
  each symbol's first occurrence;
- exchange parsing (`*` means no filter; anything else is split on commas and
  parsed with `strconv.Atoi`, and the first bad field is fatal);
- the exchange override, which forces a 24h bar step when an exchange filter
  is set;
- the three loops that walk the market calendar from `from` to `to` and emit
  one backfill call per market day (bars: one per bar period that starts on a
  market day; a period that starts on a closed day is skipped whole, market
  days inside it included).

Every backfill call is a `WorkUnit` value: `Bars`, `BarsFromTrades`, `Quotes`
or `Trades`, holding the arguments the program passes. A plan is the list of
those calls in dispatch order, or a fatal error.

- Times and durations are integer nanoseconds, as in Go's `time.Duration`.
- The Nasdaq market calendar is a parameter `isMarketDay: Time -> bool`.
- The compiled glob pattern is a parameter `matches: string -> bool`.
- The ticker listing from the API is a parameter `tickers: seq<string>`.

Modules:

- `Wrappers`: `Option` and `Result`.
- `GoStrings`: the parts of Go's `strings.Split` and `strconv.Atoi` that the
  backfiller relies on, each with an inverse (`Join`, `Itoa`).
- `Symbols`: `unique` and the symbol list.
- `Schedule`: time constants, the clamp, the calendar walk and the per-symbol
  loops.
- `Backfiller`: configuration, exchange parsing and the whole plan.

The bars and quotes loops pass the current day `s` to their calls, and the
trades loop's log line (backfiller.go:222) names `s`, but the trades goroutine
is handed the loop's end time `e` (line 231). The model follows the code, so
`Backfiller.Plan` plans trades as written. The corrected loop is modelled
beside it (see Findings).

## Model

| member | source | states |
|---|---|---|
| GoStrings.Split | contrib/polygon/backfill/backfiller/backfiller.go:126 | splitting on ',' gives at least one field, no field contains a comma, and joining the fields with ',' gives back the input |
| GoStrings.SplitJoin | contrib/polygon/backfill/backfiller/backfiller.go:126 | splitting the comma-join of one or more comma-free fields gives back exactly those fields |
| GoStrings.Atoi | contrib/polygon/backfill/backfiller/backfiller.go:127 | a successful parse lies in the 64-bit `int` range, and the text it accepted is non-empty and contains a digit |
| GoStrings.AtoiItoa | contrib/polygon/backfill/backfiller/backfiller.go:127 | every 64-bit integer's decimal text parses back to that integer |
| Symbols.FirstOccurrences | contrib/polygon/backfill/backfiller/backfiller.go:272-282 | the de-duplicated list has exactly the input's elements, has no duplicates, and is no longer than the input |
| Symbols.Unique | contrib/polygon/backfill/backfiller/backfiller.go:272-282 | the loop over the seen-keys map returns the first occurrences of the input, in input order |
| Symbols.FirstOccurrencesOfDistinct | contrib/polygon/backfill/backfiller/backfiller.go:272-282 | a list without duplicates comes back unchanged |
| Symbols.FirstOccurrencesIdempotent | contrib/polygon/backfill/backfiller/backfiller.go:272-282 | applying `unique` twice gives the same list as applying it once |
| Symbols.FirstOccurrencesHead | contrib/polygon/backfill/backfiller/backfiller.go:272-282 | the first element of a non-empty input stays first |
| Symbols.FirstOccurrencesOrder | contrib/polygon/backfill/backfiller/backfiller.go:272-282 | elements keep the relative order of their first occurrences in the input |
| Symbols.MatchingTickers | contrib/polygon/backfill/backfiller/backfiller.go:116-120 | a symbol is kept exactly when it is a listed ticker that matches the pattern, and no more symbols are kept than were listed |
| Symbols.MatchingOrder | contrib/polygon/backfill/backfiller/backfiller.go:116-120 | the pattern filter keeps the listing order of the tickers it keeps |
| Symbols.SelectSymbols | contrib/polygon/backfill/backfiller/backfiller.go:115-121 | the seeded, filtered and de-duplicated list the loop builds is the symbol-list function |
| Symbols.SymbolListShape | contrib/polygon/backfill/backfiller/backfiller.go:115-121 | the list starts with the empty symbol, has no duplicates, every other entry is a non-empty matching listed ticker, and every non-empty matching ticker appears |
| Symbols.MatchAllSelectsEveryTicker | contrib/polygon/backfill/backfiller/backfiller.go:109-121 | with a pattern that matches everything (the default `*`), the list holds exactly the empty symbol and every listed ticker |
| Symbols.SymbolListOrder | contrib/polygon/backfill/backfiller/backfiller.go:115-121 | past the seeded empty symbol, symbols appear in the order of their first listing |
| Schedule.ClampBarPeriod | contrib/polygon/backfill/backfiller/backfiller.go:100-105 | the period always ends up in [24h, 60 days]; a period already in range is unchanged, a shorter one becomes 24h and a longer one 60 days |
| Schedule.ClampBarPeriodIdempotent | contrib/polygon/backfill/backfiller/backfiller.go:100-105 | clamping twice is the same as clamping once |
| Schedule.BarStep | contrib/polygon/backfill/backfiller/backfiller.go:152-156 | with an exchange filter the bar step is 24h whatever the configured period; without one it is the configured period |
| Schedule.MarketGridSorted | contrib/polygon/backfill/backfiller/backfiller.go:192-206 | every visited day lies in [from, to) and is a market day, and successive visited days are at least one step apart |
| Schedule.MarketGridOnWalk | contrib/polygon/backfill/backfiller/backfiller.go:192-206 | every visited day is `from + k*step` for some k |
| Schedule.MarketGridComplete | contrib/polygon/backfill/backfiller/backfiller.go:192-206 | every point `from + k*step` before `to` that is a market day is visited |
| Schedule.BarWindowsOnMarketGrid | contrib/polygon/backfill/backfiller/backfiller.go:158-178 | the i-th bar window starts at the i-th visited market day and ends a step later, or at `to` if that comes first |
| Schedule.BarWindowsShape | contrib/polygon/backfill/backfiller/backfiller.go:158-178 | every bar window is non-empty, lies within [from, to], starts on a market day, and spans at most one step; consecutive windows do not overlap |
| Schedule.DailyBarsOnePerMarketDay | contrib/polygon/backfill/backfiller/backfiller.go:153-178 | with a 24h step there is exactly one bar window per market day, and each market day `from + k*24h` before `to` starts one |
| Schedule.BarsSkipClosedPeriod | contrib/polygon/backfill/backfiller/backfiller.go:158-177 | when the walk point is a closed day, no bar window opens before the next walk point a whole step later, so the market days inside that step get no bars |
| Schedule.ClosedFirstPeriodScenario | contrib/polygon/backfill/backfiller/backfiller.go:158-177 | with a 30-day step over 60 days and only day 0 closed, the only bar window is [30 days, 60 days) |
| Schedule.EnumerateBars | contrib/polygon/backfill/backfiller/backfiller.go:150-178 | the per-symbol bars loop, including the shrinking of the walk's step at the end of the range, emits exactly the bar calls over the bar windows |
| Schedule.EnumerateQuotes | contrib/polygon/backfill/backfiller/backfiller.go:187-206 | the per-symbol quotes loop emits one 24h quotes call per market day of [from, to) |
| Schedule.EnumerateTrades | contrib/polygon/backfill/backfiller/backfiller.go:214-234 | the per-symbol trades loop as written emits one trades call per market day, each dated at the range's end |
| Schedule.TradesAsWrittenOffCalendar | contrib/polygon/backfill/backfiller/backfiller.go:221-231 | for a one-day range that starts on a market day and ends on a closed day, the trades call as written is dated on the closed day |
| Schedule.EnumerateTradesPerDay | contrib/polygon/backfill/backfiller/backfiller.go:214-234 | the corrected trades loop emits one trades call per market day, dated on that day |
| Schedule.TradesPerDayOnCalendar | contrib/polygon/backfill/backfiller/backfiller.go:219-234 | the corrected trades calls are one per market day, each on a market day in [from, to), in strictly increasing order |
| Backfiller.ParseExchanges | contrib/polygon/backfill/backfiller/backfiller.go:124-134 | the exchange loop returns the exchange-list function's result, stopping at the first bad field |
| Backfiller.ParseFieldsStopsAtError | contrib/polygon/backfill/backfiller/backfiller.go:126-130 | once a prefix of the fields fails, the fields after it do not change the outcome |
| Backfiller.ParseFieldsOk | contrib/polygon/backfill/backfiller/backfiller.go:126-133 | parsing succeeds exactly when every field is an integer, and the i-th id is the i-th field's value |
| Backfiller.ParseFieldsFirstError | contrib/polygon/backfill/backfiller/backfiller.go:126-130 | a failure names the first field that is not an integer, and every field before it is one |
| Backfiller.ExchangeIDsMeaning | contrib/polygon/backfill/backfiller/backfiller.go:124-134 | `*` means no filter; any other value gives the parsed comma-separated fields in order, or fails on its first non-integer field |
| Backfiller.NoFilterIffStar | contrib/polygon/backfill/backfiller/backfiller.go:124-134 | a successful parse gives the empty list exactly for `*` |
| Backfiller.EnumerateBarsPhase | contrib/polygon/backfill/backfiller/backfiller.go:142-180 | the bars loop over the symbol list skips the empty symbol and emits each other symbol's bar calls |
| Backfiller.EnumerateQuotesPhase | contrib/polygon/backfill/backfiller/backfiller.go:186-207 | the quotes loop emits every listed symbol's quote calls, including the empty symbol's |
| Backfiller.EnumerateTradesPhase | contrib/polygon/backfill/backfiller/backfiller.go:213-235 | the trades loop emits every listed symbol's trade calls, including the empty symbol's |
| Backfiller.Plan | contrib/polygon/backfill/backfiller/backfiller.go:80-236 | the program's planning steps (checks, clamp, symbol list, exchanges, three phases) give the plan function's result |
| Backfiller.PlanFatalErrors | contrib/polygon/backfill/backfiller/backfiller.go:80-134 | a missing API key is fatal before anything else; the plan fails exactly when the key is missing or the exchange list does not parse, and then with that field |
| Backfiller.BarsPhaseOnCalendar | contrib/polygon/backfill/backfiller/backfiller.go:142-180 | every bar call is a bars or bars-from-trades call for a non-empty listed symbol, dated on a market day in [from, to) |
| Backfiller.QuotesPhaseOnCalendar | contrib/polygon/backfill/backfiller/backfiller.go:186-207 | every quotes call is for a listed symbol and covers 24h from a market day in [from, to) |
| Backfiller.TradesPhaseAtEnd | contrib/polygon/backfill/backfiller/backfiller.go:213-235 | every trades call as written is for a listed symbol and is dated at `to` |
| Backfiller.PlanOnCalendar | contrib/polygon/backfill/backfiller/backfiller.go:139-236 | in a successful plan every trades call is dated `to`, every other call is dated on a market day in [from, to), no bar call is for the empty symbol, and every non-empty symbol is a listed ticker matching the pattern |
| Backfiller.QuotesPhaseCovers | contrib/polygon/backfill/backfiller/backfiller.go:186-207 | every quotes call of every listed symbol is in the quotes phase |
| Backfiller.TradesPhaseCovers | contrib/polygon/backfill/backfiller/backfiller.go:213-235 | every trades call of every listed symbol is in the trades phase |
| Backfiller.EmptySymbolQuotedAndTraded | contrib/polygon/backfill/backfiller/backfiller.go:142-235 | in a successful plan no bars or bars-from-trades call is for the seeded empty symbol, while on a range with a market day it does get a quotes call (if quotes are enabled) and a trades call (if trades are enabled) |
| Backfiller.FilteredBarsDaily | contrib/polygon/backfill/backfiller/backfiller.go:153-174 | with an exchange filter a symbol gets one bars-from-trades call per market day, each dated that day and carrying the exchange list and batch size |
| Backfiller.BarsPhaseSize | contrib/polygon/backfill/backfiller/backfiller.go:142-180 | the bars phase has (non-empty symbols) times (bar windows) calls |
| Backfiller.QuotesPhaseSize | contrib/polygon/backfill/backfiller/backfiller.go:186-207 | the quotes phase has symbols times market days calls |
| Backfiller.TradesPhaseSize | contrib/polygon/backfill/backfiller/backfiller.go:213-235 | the trades phase has symbols times market days calls |
| Backfiller.CountNonEmptyOfSymbolList | contrib/polygon/backfill/backfiller/backfiller.go:115-121 | all symbols of the list but the seeded one are non-empty |
| Backfiller.PlanSize | contrib/polygon/backfill/backfiller/backfiller.go:139-236 | the number of calls in a successful plan is the sum over the enabled phases of their sizes |
| Backfiller.ScenarioSymbols | contrib/polygon/backfill/backfiller/backfiller.go:115-121 | with three tickers and pattern `*`, the symbol list is the empty symbol followed by the three tickers |
| Backfiller.ScenarioMarketDays | contrib/polygon/backfill/backfiller/backfiller.go:192-206 | over five days with the third and fourth closed, the walk visits days 0, 1 and 4 |
| Backfiller.ThreeSymbolsThreeMarketDays | contrib/polygon/backfill/backfiller/backfiller.go:139-180 | daily bars for three listed symbols over a five-day range with three market days give a successful plan of nine calls |

## Left out

- Concurrency is left out: the semaphore `sem`, the goroutines, the deferred
  releases and the final barrier that fills the semaphore. The model lists the
  calls in dispatch order. The bar goroutines of different symbols really run
  at the same time, so their calls interleave.
- The data race on the shared `err` variable is left out. A zero or negative
  `parallelism` is also left out: it hangs or panics on the channel.
- The quote and trade goroutines read the loop variable `sym` instead of taking
  it as a parameter (backfiller.go:197-203 and 225-231, calls at lines 200 and
  228), unlike the bar goroutine, which takes `currentSymbol` (lines 147 and
  179). Under the pre-Go-1.22 loop-variable rule, a pending goroutine may run
  after the outer loop has moved on and request a later symbol. The model gives
  each call the symbol of its own iteration. So `Backfiller.QuotesPhaseCovers`,
  `Backfiller.TradesPhaseCovers` and the symbol facts of the phase lemmas
  describe the intended symbols, not every interleaving.
- The background memory-freeing goroutine is left out: it has no effect on the
  plan.
- `initWriter` is not part of this model: it sets up storage and the
  aggregation trigger.
- The backfill calls themselves are left out: `backfill.Bars`,
  `BuildBarsFromTrades`, `Quotes`, `Trades`, and their per-call failures,
  which the program only logs. A plan records the calls' arguments.
- Logging, `api.SetAPIKey`, the final timing report and the 10-second sleep
  are left out.
- Date and duration parsing (`time.Parse`, `time.ParseDuration`) and their
  fatal errors are left out. The model takes the parsed values as
  configuration. A failing ticker listing is also left out: the listing is an
  input. So is the panic of `glob.MustCompile` on a malformed pattern
  (backfiller.go:109), which comes before exchange parsing: the model takes
  the compiled pattern as a parameter, so `Backfiller.PlanFatalErrors` speaks
  of patterns that compile.
- The glob compiler and the Nasdaq calendar are parameters: what they compute
  is not part of this model.
- Flag parsing (`init`) is left out. So is `cmd/start/main.go`, which is not
  part of this model.
- Times are unbounded integers. Go's `time.Time` arithmetic near the int64
  limits is not captured.
- GoStrings.Atoi: the error kind (syntax or range) is not modelled, because the
  program only logs the field. Its contract does not pin down the accepted
  grammar. `Backfiller.ParseFieldsOk` and `GoStrings.AtoiItoa` relate it to the
  parsed ids and to decimal formatting.

## Findings

| source | as written | input that shows it | evidently intended | confidence | as-written member | corrected member |
|---|---|---|---|---|---|---|
| contrib/polygon/backfill/backfiller/backfiller.go:231 | the trades goroutine is started with `e`, the range's end, so every market day's trades call is dated `to` | from = a market day d, to = d + 24h, with d + 24h a closed day: the only trades call is dated d + 24h, a closed day, and day d's trades are never requested | start the goroutine with `s`, giving one trades call dated on each market day in [from, to) | not executed | Schedule.TradesAsWrittenOffCalendar | Schedule.TradesPerDayOnCalendar |
