# A verified model of the scout-and-trade stock bot

This project models, in Dafny, the decision-making core of a Korean-market
stock bot. It covers the following parts:

- **Scout selector:** the pre-market pipeline that builds tomorrow's watchlist.
  - The candidate pool and the OHLCV symbol list.
  - Theme scores from condition-search hits and news items.
  - The phase guess, the market context, and the selector proper. The selector
    has three scored buckets (volume, structure, theme) that share one `picked`
    set, so a symbol lands in at most one bucket.
- **Daily scan:** its three pre-filters (volume burst, volatility jump, volume
  accumulation), the four step-function scores, and the tiering with its caps.
- **Strategy:**
  - the candle patterns that count toward a buy;
  - the buy and sell planners;
  - the watchlist loader and its tier split;
  - the per-stock strategy state;
  - the live and test account states;
  - the order tracker, the holdings book, the condition-search store and the
    condition statistics.
- **Scout bot:** event types and their JSON form, the data collector's day
  range and histories, the detector with its last-reported high and low, the
  cooldown, the threshold merge with its fallbacks, and the daily event
  statistics.
- **Analysis framework:**
  - the three observers (base candle, box, volume) and the registry that feeds
    them;
  - the scout record, the event alert and the watchlist stores;
  - the post-market analyzer with its per-stock cycle state machine;
  - the enhanced cycle analysis (data quality, price movement, state changes,
    timeout subtype, information score, market memo);
  - the daily report.
- **Risk:** the live profit-and-loss state, the daily drawdown guard, the
  cumulative profit with its maximum drawdown, the weekly and monthly reports,
  the halt-on-drawdown manager, and the daily summary.
- **Keyword extraction** from news text.

The modules follow the source's structure, but not one module per source
file, and the Dafny file names follow the module names rather than the
Python file names. Most modules model one source file: for example
`run_scan.py` is `DailyScan` (daily_scan.dfy), `news_provider.py` is
`NewsKeywords`, `stats.py` is `EventStats`, `detector.py` is `EventDetector`,
`definitions.py` is `EventDefinitions`, and the two `account_state.py` files
are `LiveAccount` and `TestAccount`. `ScanFilters` groups the three daily-scan
filter scripts. `EngineEvents` holds the event records and the time display
shared by the two framework observers. A few small helpers sit with the
module that uses them: `ConfigLoaders.Section` models a lookup in
`detector.py`, and `EventStats.OccurredAtText` the time format of
`definitions.py`. `Numeric`, `Text` and `Wrappers` are shared helpers. The
"## Model" table gives the source lines behind every member. The modules
follow the source's own form:

- **Objects whose fields are updated** are classes. The observers, the
  registry, the detector, the collector, the cooldown manager, the stores,
  the trackers and the account states all work this way. Each method
  `ensures` its new state in terms of a specification function of the old
  state, and lemmas state what that function promises.
- **Loops** are methods with invariants, each proved against a specification
  function. Examples are the scan filters, the aggregations and the report
  builders.
- **Pure code** is functions and lemmas.

The wall clock, the files, the broker and market-data APIs, and the
configuration constants imported from `config.py` are parameters. `config.py`
is not part of this model. Prices, scores and rates are `real`. Integers are
unbounded, as in Python.

Where a comment and the code disagree, the model follows the code. For
example, `scout_selector/theme_score_builder.py:147` says three news items
give a full score. The code computes `min(1.0, 0.3 * n)`, so three items give
0.9, and `ThemeScoreBuilder.NewsScore` states that.

## Model

| member | source | states |
|---|---|---|
| EngineEvents.HourMinute | test/framework/observer/base_candle.py:43-47 | `strftime("%H:%M")`: five characters, the two hour digits, a colon and the two minute digits |
| EngineEvents.ShowTime | test/framework/observer/volume.py:33 | a time is shown exactly when one is set, and always as a five-character HH:MM text |
| BaseCandle.RecordOf | test/framework/observer/base_candle.py:40-49 | the record repeats both flags, and shows the confirmation time as HH:MM exactly when one is set |
| BaseCandle.StepRule | test/framework/observer/base_candle.py:19-38 | a confirmation sets `formed` and takes the event's time; a high/low update sets only its own flag; every other event, including an enumeration-typed one, changes nothing; delivering an event twice is the same as delivering it once |
| BaseCandle.RunRule | test/framework/observer/base_candle.py:14-38 | from the initial state: formed iff some event confirmed; the time is the time of the last confirmation; the high/low flag is set iff some event updated it |
| BaseCandle.BaseCandleObserver.constructor | test/framework/observer/base_candle.py:14-17 | starts unformed, without a time, and with no high/low update |
| BaseCandle.BaseCandleObserver.OnEvent | test/framework/observer/base_candle.py:19-38 | the fields become `Step` of the old fields and the event |
| BaseCandle.BaseCandleObserver.Reset | test/framework/observer/base_candle.py:51-54 | the fields return to the initial state |
| Box.StepRule | test/framework/observer/box.py:19-38 | `BOX_FORMED` sets `formed` and takes the event's duration; `BOX_UPDATED` takes only the touch count; a text-tagged event changes nothing; delivering an event twice is the same as once |
| Box.RunRule | test/framework/observer/box.py:14-38 | from the initial state: formed iff some event formed a box; the duration is that of the last formation and the touch count that of the last update |
| Box.BoxObserver.constructor | test/framework/observer/box.py:14-17 | starts unformed, with no duration and no touch count |
| Box.BoxObserver.OnEvent | test/framework/observer/box.py:19-38 | the fields become `Step` of the old fields and the event |
| Box.BoxObserver.Reset | test/framework/observer/box.py:47-50 | the fields return to the initial state |
| Volume.RecordOf | test/framework/observer/volume.py:30-34 | the record repeats the flag and shows the time as HH:MM exactly when one is set |
| Volume.StepRule | test/framework/observer/volume.py:18-28 | the text tag `VOLUME_SPIKE` sets the flag and takes the time; every other event changes nothing, in particular the enumeration member `VOLUME_SPIKE`; delivering an event twice is the same as once |
| Volume.RunRule | test/framework/observer/volume.py:14-28 | from the initial state: a spike occurred iff some event was the text tag, at the time of the last such event |
| Volume.VolumeObserver.constructor | test/framework/observer/volume.py:14-16 | starts with no spike and no time |
| Volume.VolumeObserver.OnEvent | test/framework/observer/volume.py:18-28 | the fields become `Step` of the old fields and the event |
| Volume.VolumeObserver.Reset | test/framework/observer/volume.py:36-38 | the fields return to the initial state |
| ObserverRegistry.StepAnyIdempotent | test/framework/observer/registry.py:18-23 | for every kind of observer, a repeated delivery of the same event changes nothing more, so an observer registered twice ends as if it got the event once; no event changes an observer's kind |
| ObserverRegistry.CollectKeys | test/framework/observer/registry.py:25-32 | the collected dictionary has exactly the class names of the registered observers as keys |
| ObserverRegistry.CollectLastWins | test/framework/observer/registry.py:29-32 | each class name maps to the record of the last observer of that class in registration order |
| ObserverRegistry.ObserverRegistry.constructor | test/framework/observer/registry.py:12-13 | starts with no observers |
| ObserverRegistry.ObserverRegistry.Register | test/framework/observer/registry.py:15-16 | the observer is appended and the earlier order is kept |
| ObserverRegistry.ObserverRegistry.Dispatch | test/framework/observer/registry.py:18-23 | every registered observer ends in the state its own step gives for the event; only the observers change |
| ObserverRegistry.ObserverRegistry.ResetAll | test/framework/observer/registry.py:34-36 | every registered observer ends in the initial state of its kind |
| EventNotifier.ShouldNotify | test/framework/record/event_notifier.py:10-18 | true iff some observation has an observer whose trigger value is truthy |
| EventNotifier.FormatEventAlert | test/framework/record/event_notifier.py:24-47 | fails exactly when some observer entry is null; otherwise the text is the header and the triggered observations' lines, joined by newlines |
| EventNotifier.CountTriggered | test/framework/record/event_notifier.py:14-18 | the number of triggered observations is at most the number of observations |
| EventNotifier.AlertLinesCount | test/framework/record/event_notifier.py:33-45 | there are exactly as many alert lines as triggered observations |
| EventNotifier.AlertLinesRule | test/framework/record/event_notifier.py:33-45 | every line is the line of a triggered observation, and there are no lines exactly when no observation is triggered, which is when `should_notify` says no |
| EventNotifier.AlertLineCount | test/framework/record/event_notifier.py:28-47 | when the environment name and the lines hold no newline, the alert holds exactly one newline per triggered observation |
| EventNotifier.AlertLineNoNewlines | test/framework/record/event_notifier.py:38-45 | a line holds no newline when the stock, the slot and the event types hold none |
| WatchlistStore.AddedRule | test/framework/watchlist/store.py:13-15 | a stock is appended exactly when it is absent and fewer than three are listed; afterwards it is listed iff it was or there was room; the list stays capped and duplicate-free |
| WatchlistStore.RemovedCount | test/framework/watchlist/store.py:17-19 | removing takes away exactly one occurrence of the stock, and changes nothing when it is absent |
| WatchlistStore.RemovedSlice | test/framework/watchlist/store.py:17-19 | a present stock's first occurrence is cut out and the rest keeps its order |
| WatchlistStore.RemovedCapped | test/framework/watchlist/store.py:17-19 | removing keeps the list capped and duplicate-free, and the stock is gone afterwards |
| WatchlistStore.FixedStockListedTwice | test/framework/watchlist/store.py:9-15 | adding a fixed stock puts it into the dynamic list, so the watchlist lists it twice |
| WatchlistStore.Store.constructor | test/framework/watchlist/store.py:6 | the dynamic list starts empty |
| WatchlistStore.Store.GetWatchlist | test/framework/watchlist/store.py:9-10 | the three fixed stocks first, then the dynamic ones, nothing else |
| WatchlistStore.Store.AddStock | test/framework/watchlist/store.py:13-15 | the dynamic list becomes `Added` of the old list, and stays capped |
| WatchlistStore.Store.RemoveStock | test/framework/watchlist/store.py:17-19 | the dynamic list becomes `Removed` of the old list; a capped list stays capped and loses the stock |
| WatchlistStore.Store.ClearDynamic | test/framework/watchlist/store.py:22-23 | the dynamic list becomes empty |
| ManualAdditions.Load | test/framework/watchlist/manual_additions.py:52-83 | a stored document is returned as it is; a missing or unreadable file gives an empty document for the date, from the chat bot, without an update time |
| ManualAdditions.WithoutRule | test/framework/watchlist/manual_additions.py:167-170 | the items kept are exactly those with another symbol; the list gets shorter iff the symbol was listed, and is unchanged otherwise |
| ManualAdditions.AddRule | test/framework/watchlist/manual_additions.py:116-153 | a listed symbol answers false and leaves the file alone; otherwise the answer is whether the write succeeded, and a successful write stores the date's document with exactly one new item for the symbol, by the chat bot, with the reason and the save time |
| ManualAdditions.RemoveRule | test/framework/watchlist/manual_additions.py:156-185 | an unlisted symbol answers false and leaves the file alone; otherwise the answer is whether the write succeeded, and the stored document keeps exactly the items with another symbol |
| ManualAdditions.AddThenRemove | test/framework/watchlist/manual_additions.py:116-185 | adding a new symbol and then removing it, both writes succeeding, gives back the original item list |
| ManualAdditions.Normalized | test/framework/watchlist/manual_additions.py:203-208 | the normalised symbols are exactly the non-empty symbols padded to six digits |
| ManualAdditions.GetManualSymbols | test/framework/watchlist/manual_additions.py:188-217 | strictly sorted, so without duplicates; a text is listed iff it is a non-empty gathered symbol padded to six digits; every entry has at least six characters |
| ManualAdditions.AllSymbolsRule | test/framework/watchlist/manual_additions.py:195-208 | a symbol is gathered iff some readable document lists it |
| RiskState.AddTradeRule | live/risk_state.py:29-42 | a trade adds its profit to the day and the total, keeps the date, raises the peak to the larger of the peak and the new total, never raises the drawdown, keeps it at or below the new total minus the peak, and keeps the state valid (peak at or above the total, drawdown never positive) |
| RiskState.ResetDailyRule | live/risk_state.py:55-59 | a reset keeps the total, clears the day's profit and the drawdown, and puts the peak at the total, so the state is valid |
| RiskState.RunPeak | live/risk_state.py:29-42 | after a series of trades from a valid state: the state is valid, the day's profit and the total grew by the trades' sum, the peak never fell and is at least every total reached, and the drawdown never rose |
| RiskState.RunDrops | live/risk_state.py:40-42 | after a series of trades the drawdown is at most every fall of the total from an earlier point to a later one |
| RiskState.LiveRisk.constructor | live/risk_state.py:17-23 | the state starts for today with every amount at zero |
| RiskState.LiveRisk.AddTradePnl | live/risk_state.py:29-42 | the state becomes `AddTrade` of the old state and the profit |
| RiskState.LiveRisk.ResetDailyRisk | live/risk_state.py:55-59 | the state becomes `ResetDaily` of the old state for today |
| RiskGuard.RollOverRule | research/_draft_risk_state.py.py:32-39 | on a new day the rate, the stop and the update time are cleared and trading is back on; on the same day nothing changes; the guard is for today afterwards and stays valid (trading on iff the stop has not fired) |
| RiskGuard.AddTradeRule | research/_draft_risk_state.py.py:45-58 | the day's rate (cleared first on a new day) grows by the trade's rate and the update time is now; the stop has fired iff the new rate is at or below the limit or it had already fired the same day; a fired stop turns trading off; validity is kept |
| RiskGuard.ResumeRule | research/_draft_risk_state.py.py:73-89 | trading is back on and the stop cleared; the rate is cleared when asked or on a new day and kept otherwise |
| RiskGuard.StopHolds | research/_draft_risk_state.py.py:45-58 | once the stop has fired, any further trades the same day leave it fired and trading off, whatever their profit |
| RiskGuard.RiskGuard.constructor | research/_draft_risk_state.py.py:20-26 | trading on, no rate, no stop and no update time, for today, with the given limit |
| RiskGuard.RiskGuard.ResetIfNewDay | research/_draft_risk_state.py.py:32-39 | the guard becomes `RollOver` of the old guard |
| RiskGuard.RiskGuard.AddTradePnl | research/_draft_risk_state.py.py:45-58 | the guard becomes `AddTrade` of the old guard |
| RiskGuard.RiskGuard.IsTradingEnabled | research/_draft_risk_state.py.py:64-67 | the guard rolls over to today and the answer is its trading flag afterwards |
| RiskGuard.RiskGuard.ResumeTrading | research/_draft_risk_state.py.py:73-89 | the guard becomes `Resume` of the old guard |
| RiskGuard.RiskGuard.GetRiskStatus | research/_draft_risk_state.py.py:95-104 | the guard rolls over to today and the status reports its fields afterwards |
| CumulativePnl.SafeInt | live/cumulative_pnl.py:14-18 | a number is cut toward zero, an absent cell counts as zero, and text that does not parse gives the default |
| CumulativePnl.Dates | live/cumulative_pnl.py:31-35 | the dates of the logs, one per log, in order |
| CumulativePnl.TotalAbsent | live/cumulative_pnl.py:45 | a date without a log has a total of zero, the `daily.get(date_str, 0)` default |
| CumulativePnl.PrefixStep | live/cumulative_pnl.py:31-45 | one more log adds its date to the dates seen and its profit to that date's total, and no other total changes |
| CumulativePnl.SumLog | live/cumulative_pnl.py:39-43 | the inner loop's sum is the sum of the log's rows, each read by `_safe_int` |
| CumulativePnl.BuildDaily | live/cumulative_pnl.py:21-47 | the loop's dictionary, sorted by date, is the daily table `Daily` of the logs |
| CumulativePnl.DailyRule | live/cumulative_pnl.py:21-47 | the table's dates are strictly increasing, are exactly the dates of the logs, and each carries the total of all that date's logs |
| CumulativePnl.OccurrencesOfNoDups | live/cumulative_pnl.py:45-47 | in a list without repeats a date occurs once if listed and not at all otherwise |
| CumulativePnl.TotalsOfNothing | live/cumulative_pnl.py:29 | without logs every total is zero |
| CumulativePnl.TotalsOfSnoc | live/cumulative_pnl.py:45 | one more log adds its profit once for each time its date is listed |
| CumulativePnl.TotalsConserve | live/cumulative_pnl.py:29-47 | over a repeat-free list holding every log's date, the totals add up to the profit of all the logs |
| CumulativePnl.ValuesAreTotals | live/cumulative_pnl.py:47 | a table whose entries are the totals of its dates sums to the totals of those dates |
| CumulativePnl.DailySum | live/cumulative_pnl.py:21-47 | the daily profits add up to the profit of all the logs: nothing is lost or counted twice |
| CumulativePnl.ScanPeak | live/cumulative_pnl.py:113-124 | the running total is the sum of the days, and the peak, which starts at zero, is at least every running total and equal to one of them |
| CumulativePnl.ScanDrops | live/cumulative_pnl.py:113-127 | the drawdown is never positive, and at most every fall of the running total from an earlier running total, the zero start included |
| CumulativePnl.ScanDropAttained | live/cumulative_pnl.py:113-127 | the drawdown is one of those falls, so it is exactly the deepest fall |
| CumulativePnl.GetCumulativeStatus | live/cumulative_pnl.py:97-133 | the status counts the dates of the table and carries the final running total and the drawdown of the scan over the daily profits; all zero without logs |
| CumulativePnl.StatusRule | live/cumulative_pnl.py:97-133 | the reported profit is the profit of all the logs, there are no days exactly when there are no logs, and the drawdown is never positive |
| PeriodicReport.MddOf | test/periodic_report.py:52-59 | a peak exists exactly when there is at least one day |
| PeriodicReport.CalcMdd | test/periodic_report.py:48-63 | the loop's result is the worst drawdown of `MddOf` |
| PeriodicReport.MddPeak | test/periodic_report.py:56-59 | the running total is the sum of the days, and the peak is at least every running total after the first day and equal to one of them |
| PeriodicReport.MddBound | test/periodic_report.py:53-61 | the result is never positive, is zero without days, and is at most the drawdown of every day against the peak up to that day |
| PeriodicReport.DrawdownSign | test/periodic_report.py:60 | below a positive peak the drawdown is a fall of at most the whole peak; at a peak of zero or below it is never negative |
| PeriodicReport.MddAttained | test/periodic_report.py:56-61 | the result is zero or the drawdown of some day whose peak is positive |
| PeriodicReport.NegativePeakHidesLoss | test/periodic_report.py:58-60 | two losing days of 100 give a peak of -100 and a drawdown of zero although the total fell |
| PeriodicReport.Insert | test/periodic_report.py:81 | inserting into a sorted list keeps it sorted, adds exactly the one tuple, and puts the new tuple or the old head first |
| PeriodicReport.SortPairs | test/periodic_report.py:81 | the sorted tuples are ordered by date, then by profit, and are a permutation of the input |
| PeriodicReport.Filter | test/periodic_report.py:77 | an entry is kept iff it is in the table and its date passes the window; nothing is added |
| PeriodicReport.Profits | test/periodic_report.py:82 | the profits of the tuples, one per tuple, in order |
| PeriodicReport.SummarizeRule | test/periodic_report.py:69-127 | a report exists iff some day is in the window; it then covers exactly those days in date order, its day count is theirs, its total their sum, its average the total over the count cut toward zero, and its drawdown is never positive |
| PeriodicReport.WeeklyWindow | test/periodic_report.py:74-77 | the weekly window holds exactly the `days` days ending today; today is in it when `days` is at least one, and no day is in it otherwise |
| PeriodicReport.MonthlyWindow | test/periodic_report.py:106-109 | for one month the window starts on the first of this month; each further month only widens it, by exactly 30 days |
| RiskManager.RunningSums | live/risk_manager.py:39-43 | one running total per day, the first being the first day and the last the sum of all days |
| RiskManager.RunningSumsRule | live/risk_manager.py:39-43 | each running total is the sum of the days up to it |
| RiskManager.SameAsPeriodic | live/risk_manager.py:45-52 | the peak and the worst drawdown of the two loops are those of the periodic report's `_calc_mdd` on the same days |
| RiskManager.PnlStatusRule | live/risk_manager.py:34-59 | no status exactly when there is no day; otherwise the status counts the days, its profit is their sum, and its drawdown is never positive and at most the drawdown of each day against the peak up to it |
| RiskManager.NegativePeakHidesLoss | live/risk_manager.py:45-52 | two losing days of 100 report a total of -200 and a drawdown of zero |
| RiskManager.AccumulateDays | live/risk_manager.py:39-43 | the first loop's list is the running totals |
| RiskManager.WorstDrawdown | live/risk_manager.py:45-52 | the second loop's result is the worst drawdown of the running totals with the peak starting at the first |
| RiskManager.GetPnlStatus | live/risk_manager.py:34-59 | the status is `PnlStatus` of the daily profits of the logs, in date order |
| RiskManager.RiskManager.constructor | live/risk_manager.py:10-11 | the halt flag is as found |
| RiskManager.RiskManager.HaltTrading | live/risk_manager.py:17-20 | the flag is raised, whether or not it was |
| RiskManager.RiskManager.ClearHalt | live/risk_manager.py:26-28 | the flag is lowered, whether or not it was |
| RiskManager.RiskManager.CheckMddAndHalt | live/risk_manager.py:65-74 | the answer is true iff there is a status whose drawdown is at or below the limit; the flag is then raised and otherwise left as it was |
| RiskManager.StatusFromLogs | live/risk_manager.py:34-37 | without logs there is no status, so the stop never trips; with logs the status's profit is the profit of all the logs and its drawdown is never positive |
| DailySummary.Parsed | live/daily_summary.py:41-42 | the rows' profits exist iff every row's cell is a number, and are then those numbers in order |
| DailySummary.GenerateDailySummary | live/daily_summary.py:12-71 | the outcome of the single pass is `Expected`: no summary without a log, a failure on a row that does not parse, the summary otherwise |
| DailySummary.WinsRule | live/daily_summary.py:46-47 | at most every trade wins; all win iff every profit is positive; none iff no profit is |
| DailySummary.WinRateRule | live/daily_summary.py:49 | the win rate is between 0 and 100; 100 iff every trade won; 0 iff no trade won or there was none |
| DailySummary.OutcomeRule | live/daily_summary.py:29-42 | no log gives no summary; a log fails exactly when some row does not parse |
| DailySummary.SummaryRule | live/daily_summary.py:34-71 | with a log that parses: the summary counts the rows, its profit is their total cut toward zero, its win rate is a percentage, its date is the one asked for (today otherwise) and its file is named after that date |
| NewsKeywords.ScanKeywords | signals_collector/collectors/news_provider.py:65-72 | the loop with its early break computes `Found` over the keyword list |
| NewsKeywords.StoppedStays | signals_collector/collectors/news_provider.py:71-72 | once the list has reached the maximum the loop breaks: later keywords change nothing |
| NewsKeywords.ExtractKeywordsLoop | signals_collector/collectors/news_provider.py:49-74 | the result is `ExtractKeywords` of the text: nothing for an empty text, the loop over the keyword table otherwise |
| NewsKeywords.TakeStep | signals_collector/collectors/news_provider.py:68-72 | one more keyword changes the capped list as it changes the first `Cap` distinct mentioned keywords |
| NewsKeywords.FoundIsCappedDedup | signals_collector/collectors/news_provider.py:64-74 | the result is the first `Cap(max)` distinct mentioned keywords in table order, where `Cap` is the maximum, or one when the maximum is below one |
| NewsKeywords.ExtractRule | signals_collector/collectors/news_provider.py:49-74 | an empty text gives nothing; every result is a table keyword the lowered text contains; there are no repeats; at most the maximum (at most one when it is below one) are returned; results keep the table's order |
| NewsKeywords.ResultRule | signals_collector/collectors/news_provider.py:64-74 | the same for any keyword list |
| NewsKeywords.MentionedRule | signals_collector/collectors/news_provider.py:67-68 | a keyword is mentioned iff it is listed and the lowered text contains it lowered |
| NewsKeywords.MentionedOrder | signals_collector/collectors/news_provider.py:67-70 | filtering keeps the order of first occurrences in the keyword list |
| Selector.DefaultConfig | scout_selector/selector.py:13-47 | the phase is the one given; every bucket quota is 2; each bucket's weights sum to 1 |
| Selector.Clamp | scout_selector/selector.py:54-55 | the result lies in [lo, hi]; a value inside is kept, one below gives lo and one above gives hi |
| Selector.ZNorm | scout_selector/selector.py:58-62 | one value per input; all zeros when the standard deviation is zero; otherwise each value minus the mean, over the deviation |
| Selector.ComputeFeatures | scout_selector/selector.py:73-99 | keeps symbol, close and turnover; the volatility is missing exactly when the close is zero and otherwise is (high - low) / close; the spike ratio is 1 when the volume mean is zero and otherwise volume / mean |
| Selector.LastRowOf | scout_selector/selector.py:176 | the row found is a row of the symbol, and no later row has that symbol |
| Selector.Latest | scout_selector/selector.py:175-176 | one row per symbol, symbols strictly ascending, exactly the symbols of the history, each with its last row |
| Selector.Universe | scout_selector/selector.py:178-185 | a row is kept iff it is a latest row that passes the phase's turnover filter; no symbol is repeated |
| Selector.VolumeSigmoids | scout_selector/selector.py:107-109 | three columns, one value per universe row; with a sigmoid into [0, 1] every value lies in [0, 1] |
| Selector.VolumeScoreAt | scout_selector/selector.py:111-122 | in the normal phase a row that fails the spike and volatility gate scores 0 |
| Selector.ScoreVolume | scout_selector/selector.py:106-124 | one score per row; in the normal phase every row failing the gate scores 0 |
| Selector.VolumeScoreInUnit | scout_selector/selector.py:106-124 | with non-negative weights summing to at most 1 and a sigmoid into [0, 1], every volume score lies in [0, 1] |
| Selector.TrendScore | scout_selector/selector.py:128 | the trend score lies in [0, 1] and is 1 once the trend's size reaches 10% |
| Selector.CleanScore | scout_selector/selector.py:129 | the cleanliness score lies in [0, 1] and is 1 at a share of 0.6 |
| Selector.StructureScoreAt | scout_selector/selector.py:128-146 | the score lies in [0, 1]; in the normal phase it is 0 outside the range band |
| Selector.ScoreStructure | scout_selector/selector.py:127-148 | one score per row, each in [0, 1]; in the normal phase rows outside the range band score 0 |
| Selector.ThemeScoreAt | scout_selector/selector.py:152-158 | the score lies in [0, 1]; in the normal phase it is 0 when the clipped theme signal is below `theme_min_score` |
| Selector.ScoreTheme | scout_selector/selector.py:151-160 | one score per row, each in [0, 1]; in the normal phase rows with a clipped theme signal below the minimum score 0 |
| Selector.SortDesc | scout_selector/selector.py:221 | descending by score and a permutation of the input |
| Selector.Scored | scout_selector/selector.py:221 | each universe row paired with its own score, in row order |
| Selector.Ranked | scout_selector/selector.py:221 | descending by score, and a candidate is ranked iff it is a universe row with its score |
| Selector.GreedyPicksEligible | scout_selector/selector.py:218-243 | every pick comes from the ranking, has a positive score and an unpicked symbol, and no symbol is picked twice |
| Selector.GreedyQuota | scout_selector/selector.py:240-242 | a bucket takes at most its quota, and at most one when the quota is below one, because the stop is checked after the append |
| Selector.GreedySortedDesc | scout_selector/selector.py:221-243 | the picks keep the ranking's order, so they are in descending score |
| Selector.GreedyTakesBest | scout_selector/selector.py:218-243 | an eligible candidate left out means the quota was reached, and every pick scores at least as much as it |
| Selector.PickBucket | scout_selector/selector.py:218-243 | the closure's loop picks exactly the greedy scan, and the shared picked set grows by exactly the picks' symbols |
| Selector.LargecapPicks | scout_selector/selector.py:187-201 | every large-cap pick has score 1 in the large-cap bucket, and the symbols are exactly the configured ones present in the latest rows |
| Selector.LargecapOrder | scout_selector/selector.py:188-190 | the large-cap symbols come in the configured order, filtered to those present |
| Selector.GreedyBucketOk | scout_selector/selector.py:218-308 | a bucket's picks are universe rows with a positive bucket score, with no repeated symbol, in descending score, within the quota, and disjoint from the symbols picked before |
| Selector.GreedyComplete | scout_selector/selector.py:218-243 | a greedy scan that stops short of its quota has taken the symbol of every unpicked candidate with a positive score |
| Selector.GreedyTop | scout_selector/selector.py:218-243 | over a descending ranking, every unpicked candidate with a positive score that the scan leaves out scores no higher than any pick |
| Selector.BucketPicksTop | scout_selector/selector.py:218-308 | a universe row with a positive bucket score whose symbol no bucket took was left out only because the bucket holds its full quota of picks, each scoring at least as high |
| Selector.PickInto | scout_selector/selector.py:218-308 | one bucket's picks are exactly the greedy scan over the ranked scores; they satisfy `BucketOk`, avoid the symbols picked before, and are added to them |
| Selector.SelectedRule | scout_selector/selector.py:167-315 | in the selected watchlist the large-cap bucket is the configured symbols present, every other bucket satisfies `BucketOk` for its own scores and quota, and the four buckets are pairwise disjoint |
| Selector.SelectWatchlist | scout_selector/selector.py:167-315 | the result is `Selected`: the configured large caps present, then the volume, structure and theme greedy scans in that order, each skipping the symbols taken before; each bucket satisfies `BucketOk` and the four are pairwise disjoint |
| Selector.NormalPhasePicksPassGates | scout_selector/selector.py:117-158 | in the normal phase every volume pick passes the spike and volatility gate, every structure pick lies in the range band, and every theme pick has a clipped theme signal of at least the minimum |
| ThemeScoreBuilder.NewsSource | scout_selector/theme_score_builder.py:136-141 | an item without keywords is labelled "news:일반"; otherwise "news:" and its first keyword, or its first two joined by a comma |
| ThemeScoreBuilder.NewsScore | scout_selector/theme_score_builder.py:148 | 0.3 per item, capped at 1.0: in [0, 1], positive for any item, 1.0 from four items on, exactly 0.3 times the count below four |
| ThemeScoreBuilder.HitsOf | scout_selector/theme_score_builder.py:104-107 | one hit per symbol of the condition, in order, each labelled "condition:" and the condition's name |
| ThemeScoreBuilder.CondHitsMembers | scout_selector/theme_score_builder.py:104-111 | a (symbol, label) pair is a hit iff some condition lists the symbol and carries the label |
| ThemeScoreBuilder.NewsLabelsMembers | scout_selector/theme_score_builder.py:131-143 | a label belongs to a symbol iff the symbol is non-empty and some item naming it carries that label |
| ThemeScoreBuilder.NewsCountPositive | scout_selector/theme_score_builder.py:131-134 | a symbol has news iff it is non-empty and some item names it |
| ThemeScoreBuilder.CondInvStep | scout_selector/theme_score_builder.py:107-111 | one more hit keeps the condition loop's invariant: keys are the symbols hit so far, each scoring 1.0 with exactly its labels, without repeats |
| ThemeScoreBuilder.ConditionScores | scout_selector/theme_score_builder.py:104-111 | loop (A): the keys are exactly the symbols the conditions list; each scores 1.0 and carries exactly its conditions' labels, without repeats |
| ThemeScoreBuilder.TalliesAt | scout_selector/theme_score_builder.py:131-143 | a symbol has tallies iff some item names it; its count is the number of items naming it and its labels are their labels without repeats, in first-seen order |
| ThemeScoreBuilder.NewsTallies | scout_selector/theme_score_builder.py:128-143 | the loop's two dictionaries are the tallies of the items: counts and distinct labels for exactly the named symbols |
| ThemeScoreBuilder.Appended | scout_selector/theme_score_builder.py:152-154 | the result holds exactly the old labels and the extra ones, starts with the old list, and adds no repeat |
| ThemeScoreBuilder.AppendMissing | scout_selector/theme_score_builder.py:152-154 | the inner loop's list is `Appended` of the old list and the extra labels |
| ThemeScoreBuilder.Merged | scout_selector/theme_score_builder.py:146-154 | the merged score is the larger of the old score and the news score, and the labels are the old ones and the news ones |
| ThemeScoreBuilder.MergeNews | scout_selector/theme_score_builder.py:146-154 | loop (B2): symbols the news names are merged, others are untouched, and the keys are the old ones and the named ones |
| ThemeScoreBuilder.CondEntry | scout_selector/theme_score_builder.py:92-115 | without a news file, the condition map already meets the builder's promise for every symbol |
| ThemeScoreBuilder.NewsEntry | scout_selector/theme_score_builder.py:117-158 | the condition map merged with the news tallies meets the builder's promise for every symbol |
| ThemeScoreBuilder.SortedEntry | scout_selector/theme_score_builder.py:160-166 | sorting each symbol's labels keeps the promise |
| ThemeScoreBuilder.BuildThemeScoreMap | scout_selector/theme_score_builder.py:68-168 | a symbol is a key iff a condition or a news item names it; it scores 1.0 when a condition names it and its news score otherwise; its labels are sorted, without repeats, and exactly those of the conditions and items naming it; a missing file contributes nothing |
| ThemeScoreBuilder.SortSources | scout_selector/theme_score_builder.py:161-166 | the same keys and scores, each label list strictly sorted with the same members |
| ThemeSignals.RiseCountBounds | scout_selector/theme_signals.py:138-149 | the rise count is at most the group's size, and positive iff some member in the frame rose by 3% or more |
| ThemeSignals.CountRises | scout_selector/theme_signals.py:138-149 | the loop's count is the number of members present in the frame with a trend of at least 3% |
| ThemeSignals.CheckThemeGroupRise | scout_selector/theme_signals.py:102-155 | true iff some group containing the symbol has three or more risen members; never true without groups |
| ThemeSignals.ThemeScoreMinimal | scout_selector/theme_signals.py:161-204 | 1.0 for a condition hit; otherwise 1.0 from four news hits on; with a group rise at least 0.5 and at least the news score; otherwise exactly 0.3 per hit; always in [0, 1] for a non-negative hit count |
| ThemeSignals.BuildThemeScoreMap | scout_selector/theme_signals.py:210-242 | one entry per input symbol; a symbol missing from the frame scores 0; any other scores its minimal theme score; all scores lie in [0, 1] when no hit count is negative |
| CandidatePool.Norm | scout_selector/build_candidate_pool.py:172-173 | a stored symbol is at least six characters long |
| CandidatePool.NormSymsMembers | scout_selector/build_candidate_pool.py:171-173 | a padded symbol comes from exactly the truthy values of the entry |
| CandidatePool.NormAllWidth | scout_selector/build_candidate_pool.py:170-173 | every symbol collected from the file is at least six characters long and comes from a well-formed entry |
| CandidatePool.ConditionResults | scout_selector/build_candidate_pool.py:136-182 | a missing or unreadable file gives nothing; a well-formed list gives its padded symbols sorted and without repeats; a list with a malformed entry gives, unsorted, the symbols collected before that entry |
| CandidatePool.FirstMalformed | scout_selector/build_candidate_pool.py:170-180 | the index found is of a malformed entry with only well-formed entries before it |
| CandidatePool.LoadConditionResults | scout_selector/build_candidate_pool.py:136-182 | the loader's loops return `ConditionResults` of the file |
| CandidatePool.AppendEntry | scout_selector/build_candidate_pool.py:171-173 | the inner loop appends the entry's padded truthy symbols, in order |
| CandidatePool.FirstMalformedUnique | scout_selector/build_candidate_pool.py:170-180 | a malformed entry with only well-formed entries before it is the first malformed one |
| CandidatePool.PoolOf | scout_selector/build_candidate_pool.py:227-249 | the pool is for the date and its symbols are strictly sorted and never empty: the distinct union of the four lists with their raw lengths counted, or the sorted fixed symbols when every list is empty |
| CandidatePool.BuildCandidatePool | scout_selector/build_candidate_pool.py:189-279 | the symbols are strictly sorted and are exactly the fixed symbols and the condition file's symbols; the stubs count 0, the conditions their raw length, the fixed symbols theirs |
| CollectOhlcv.CollectedMembers | scout_selector/collect_ohlcv.py:231-234 | a collected value is what some line yields |
| CollectOhlcv.CollectedSnoc | scout_selector/collect_ohlcv.py:231-234 | one more line adds exactly the value it yields |
| CollectOhlcv.ManualSymbolsAreDigits | scout_selector/collect_ohlcv.py:232-234 | every manual symbol is a non-empty run of digits and the stripped text of some line |
| CollectOhlcv.LoadSymbolsFile | scout_selector/collect_ohlcv.py:216-243 | the set of stripped non-empty all-digit lines; nothing for a missing or unreadable file |
| CollectOhlcv.CollectInputSymbols | scout_selector/collect_ohlcv.py:246-282 | strictly sorted; a symbol is listed iff it is a candidate, a manual symbol (when a list is given) or fixed; the fixed symbols are always listed |
| CollectOhlcv.SortedOf | scout_selector/collect_ohlcv.py:278 | the set's members as a strictly ascending list |
| CollectOhlcv.MakeRecord | scout_selector/collect_ohlcv.py:89-103 | the record keeps the day's date, symbol, open, high, low, close and volume, and its turnover is exactly close times volume (so, for a non-zero volume, turnover divided by volume is the close) |
| CollectOhlcv.NormalizeDate | scout_selector/collect_ohlcv.py:307-309 | an eight-character date becomes ten characters with dashes at 4 and 7 and the digits in place; any other length is kept |
| CollectOhlcv.NormalizeDateRoundTrip | scout_selector/collect_ohlcv.py:307-309 | rewriting twice changes nothing more, and dropping the dashes gives the original eight characters back |
| CollectOhlcv.NormalizeDates | scout_selector/collect_ohlcv.py:306-309 | every row's date is rewritten in place and nothing else changes |
| MarketContext.DefaultContext | scout_selector/market_context.py:63-81 | the date and time given, level v0, status "unknown", no bases, the default note; the status is a valid one |
| MarketContext.CreateContext | scout_selector/market_context.py:84-122 | each given field overrides the default; a status other than "unknown" or "observed" is ignored; a non-list basis becomes empty; the status stays valid; with no arguments it is the default context |
| PrepareTomorrow.MaxDays | scout_selector/prepare_tomorrow.py:54-58 | the largest number of distinct dates of any symbol: every symbol has at most that many, and some symbol has exactly that many unless it is zero |
| PrepareTomorrow.InferPhase | scout_selector/prepare_tomorrow.py:48-63 | "normal" or "warmup"; "warmup" for an empty frame or one without a symbol or date column |
| PrepareTomorrow.InferPhaseNormal | scout_selector/prepare_tomorrow.py:48-63 | "normal" iff both columns exist and some symbol has at least `lookback` distinct dates, and at least one |
| PrepareTomorrow.ColdStartWatchlist | scout_selector/prepare_tomorrow.py:156-179 | one large-cap pick per configured large cap, in order, scored 1.0 with zero close and turnover; the other buckets empty |
| PrepareTomorrow.TomorrowWatchlist | scout_selector/prepare_tomorrow.py:156-186 | the cold-start list for an empty frame; otherwise exactly `Selector.Selected` under the default configuration of the inferred phase, so the large caps present and all four buckets pairwise disjoint |
| DailyScan.VolumeScore | test/daily_scan/run_scan.py:37-44 | one of 0, 8, 16 and 25; 25 iff the ratio is at least 2.5; 0 iff it is below 1 |
| DailyScan.VolumeScoreMonotone | test/daily_scan/run_scan.py:37-44 | a larger volume ratio never scores less |
| DailyScan.BodyScore | test/daily_scan/run_scan.py:56-64 | one of 0, 8, 10 and 15 |
| DailyScan.WickScore | test/daily_scan/run_scan.py:66-74 | one of 0, 5 and 10; 0 iff the wicks make up at least 70% of the range |
| DailyScan.CandleScore | test/daily_scan/run_scan.py:51-76 | between 0 and 25; 0 for a flat or inverted candle; otherwise the body score of the body's share of the range plus the wick score of the wicks' share |
| DailyScan.VolatilityScore | test/daily_scan/run_scan.py:83-95 | one of 0, 5, 10 and 20; 0 for a close at or below zero; 20 iff the range is 1.5% to 4.5% of a positive close |
| DailyScan.ValueScore | test/daily_scan/run_scan.py:103-108 | one of 0, 8 and 15 |
| DailyScan.PriceScore | test/daily_scan/run_scan.py:110-115 | one of 0, 3 and 5 |
| DailyScan.LiquidityScore | test/daily_scan/run_scan.py:102-117 | between 0 and 20, the value part plus the price part |
| DailyScan.TierOf | test/daily_scan/run_scan.py:174-182 | TIER1 iff the total is at least 80; TIER2 iff it is from 65 to below 80; NONE iff below 65 |
| DailyScan.RecordOf | test/daily_scan/run_scan.py:147-197 | a record exists iff the volume history is non-empty and the traded value reaches the minimum; it is for the symbol, with a total in [0, 90] and the tier of that total; the volume score uses the exact ratio, and the stored ratio is that ratio rounded to a whole number of hundredths, within 0.005 of it |
| Numeric.Round2 | test/daily_scan/run_scan.py:188 | `round(x, 2)`: a whole number of hundredths within 0.005 of the value, and the value itself when it already is one |
| DailyScan.OfTier | test/daily_scan/run_scan.py:204-205 | exactly the records of the tier, none added |
| DailyScan.Take | test/daily_scan/run_scan.py:204-205 | the slice `[:n]`: a prefix, n long when there are enough |
| DailyScan.AddTagMembers | test/daily_scan/run_scan.py:131-133 | after one tag a symbol is a key iff it was or the tag lists it, and it carries the tag iff the tag lists it |
| DailyScan.SourceMapMembers | test/daily_scan/run_scan.py:130-133 | a symbol is a key iff some condition list holds it, and carries exactly the tags of the lists holding it |
| DailyScan.BuildSourceMap | test/daily_scan/run_scan.py:127-133 | the first loop builds `SourceMap` of the three lists |
| DailyScan.RunDailyScan | test/daily_scan/run_scan.py:124-207 | the result is the first 30 TIER1 records followed by the first 50 TIER2 records of the scan, in scan order |
| DailyScan.ScannedMembers | test/daily_scan/run_scan.py:139-197 | every record is for a scanned symbol with loaded data that passed both filters, carries its tags joined by "\|", and has a total in [0, 90] with that total's tier |
| DailyScan.ScanResultShape | test/daily_scan/run_scan.py:204-207 | at most 80 records, no NONE record, each total in [65, 90], and every TIER1 record before every TIER2 record |
| ScanFilters.Present | test/daily_scan/filters/a_volume_burst.py:131 | `dropna()` keeps at most the values it was given |
| ScanFilters.PriorDays | test/daily_scan/filters/a_volume_burst.py:135 | `iloc[-(n + 1):-1]`: the n entries just before the last |
| ScanFilters.LastDays | test/daily_scan/filters/c_volume_accum.py:124 | `iloc[-n:]`: the last n entries, or all of a shorter list |
| ScanFilters.MeanOf | test/daily_scan/filters/c_volume_accum.py:124 | NaN exactly for no values, the mean otherwise |
| ScanFilters.Universe | test/daily_scan/filters/a_volume_burst.py:67-78 | the tickers of every market, each once |
| ScanFilters.PickedMembers | test/daily_scan/filters/a_volume_burst.py:118-158 | a symbol is picked iff it is in the universe and its frame passes the test; no symbol is picked twice |
| ScanFilters.WrittenIsPicked | test/daily_scan/filters/a_volume_burst.py:58-61 | `_write_symbol_csv`'s de-duplication leaves the picked list as it is: every symbol once, in universe order |
| ScanFilters.FlattenMembers | test/daily_scan/filters/a_volume_burst.py:75-77 | a ticker is in the joined lists iff some market lists it |
| ScanFilters.BurstCheck | test/daily_scan/filters/a_volume_burst.py:121-158 | the loop body picks the symbol iff its frame passes the volume-burst test |
| ScanFilters.GenerateVolumeBurst | test/daily_scan/filters/a_volume_burst.py:93-168 | the written list is the universe's burst picks, each once; a symbol is written iff some market lists it and its frame passes |
| ScanFilters.JumpCheck | test/daily_scan/filters/b_volatility_jump.py:112-141 | the loop body picks the symbol iff its frame passes the volatility-jump test |
| ScanFilters.GenerateVolatilityJump | test/daily_scan/filters/b_volatility_jump.py:84-151 | the written list is the universe's jump picks, each once; a symbol is written iff some market lists it and its frame passes |
| ScanFilters.RecentWindow | test/daily_scan/filters/c_volume_accum.py:129 | the last `recent_days` volumes |
| ScanFilters.PastWindow | test/daily_scan/filters/c_volume_accum.py:130 | the `lookback_days` volumes just before the recent window, which together make the last lookback + recent volumes |
| ScanFilters.AccumCheck | test/daily_scan/filters/c_volume_accum.py:113-136 | the loop body picks the symbol iff its frame passes the accumulation test |
| ScanFilters.GenerateVolumeAccum | test/daily_scan/filters/c_volume_accum.py:85-146 | the written list is the universe's accumulation picks, each once; a symbol is written iff some market lists it and its frame passes |
| StrategySignals.Get | live/strategy_signals.py:17-22 | the candle's numeric value under the key, or the default when the key is missing or does not convert |
| StrategySignals.BodySize | live/strategy_signals.py:25-28 | the absolute distance between open and close |
| StrategySignals.UpperWick | live/strategy_signals.py:31-35 | never negative; the high less the top of the body when the high is above both ends, else 0 |
| StrategySignals.IsLongUpperWickBearish | live/strategy_signals.py:49-81 | true iff a candle is present, bearish, its wick at least the ratio times its body floored at the minimum, its close at or above the box low and its volume at least the average; a positive wick then follows |
| StrategySignals.IsThreeBullish | live/strategy_signals.py:87-126 | true exactly when there are at least three candles and the last three have strictly rising closes and lows, each of their three highs is at most the box top raised by the margin, and their mean volume is at least the average |
| StrategySignals.IsBullishEngulfing | live/strategy_signals.py:132-171 | true exactly when there are at least two candles, the last two are bearish then bullish, the bullish body covers the bearish one, the volume reaches the multiple of the average and the close is at or above the box low |
| StrategySignals.EngulfingCoversBody | live/strategy_signals.py:132-171 | an engulfing candle's body is at least the engulfed body, and both ends of the engulfed body lie within it |
| StrategySignals.ExplainBuySignals | live/strategy_signals.py:210-235 | all false for no candles; otherwise the wick test on the last candle and the two multi-candle tests on the list |
| StrategySignals.CountBuySignals | live/strategy_signals.py:177-207 | between 0 and 3, 0 for no candles, at most 1 for fewer than two candles, and equal to the number of true answers in the explanation of the same arguments |
| BuyPlanner.CanBuyToday | strategy/buy_planner.py:24-34 | true iff fewer than 5 holdings and at least 100,000 in cash |
| BuyPlanner.CanBuySymbol | strategy/buy_planner.py:37-44 | false for a held symbol; otherwise exactly `can_buy_today` |
| BuyPlanner.CalcBuyCash | strategy/buy_planner.py:50-65 | 0 with no free slot; a non-zero amount is at least the minimum order, fits the cash over all free slots and is the largest such; non-zero iff a slot is free and the cash covers the minimum on every free slot |
| BuyPlanner.FloorDivision | strategy/buy_planner.py:59-63 | floor division by the free slots brackets the cash, and reaches the minimum order iff the cash covers the minimum on every slot |
| SellPlanner.ShouldSell | strategy/sell_planner.py:4-12 | always true in test mode; otherwise false for an unheld symbol and true iff the price is at least 1.01 times the average price |
| SellPlanner.SellQty | strategy/sell_planner.py:15-23 | 1 in test mode; otherwise 0 for an unheld symbol and the whole held quantity for a held one |
| SellPlanner.SaleIsProfitable | strategy/sell_planner.py:4-23 | outside test mode a sale is only of a held symbol, sells all of it, and for a positive average price only above that price |
| WatchlistLoader.IndexedAt | strategy/utils/watchlist_loader.py:33-40 | the keys are the rows' keys, each holding the value of the last row with that key |
| WatchlistLoader.IndexedStep | strategy/utils/watchlist_loader.py:33-40 | one more row assigns its key to its value on top of the earlier rows' map |
| WatchlistLoader.LoadWatchlist | strategy/utils/watchlist_loader.py:6-43 | an empty map for a missing file; otherwise the map the row loop builds |
| WatchlistLoader.WatchEntries | strategy/utils/watchlist_loader.py:31-40 | a code is loaded iff it is the stripped code of some row, and its entry holds the stripped tier, the score and the stripped tags of the last such row |
| WatchlistLoader.SplitByTier | strategy/utils/watchlist_loader.py:46-52 | the TIER1 entries and the TIER2 entries, values unchanged; the parts are disjoint and any other tier is dropped |
| EventDefinitions.EventTypesDistinct | test/scout_bot/events/definitions.py:24-31 | exactly six event types, each listed once, and distinct types have distinct string values |
| EventDefinitions.DatePart | test/scout_bot/events/definitions.py:67 | for a valid date, ten characters with dashes at positions 4 and 7 |
| EventDefinitions.TimePart | test/scout_bot/events/definitions.py:67 | for a valid time, eight characters with colons at positions 2 and 5, starting with the two-digit hour |
| EventDefinitions.FormatOccurredAt | test/scout_bot/events/definitions.py:67 | always ends in the literal "+09:00"; for a valid value, 25 characters with the date, a 'T', then the time, the hour at positions 11-12 |
| EventDefinitions.FormatIgnoresZone | test/scout_bot/events/definitions.py:64-67 | two values that differ only in their zone are written identically, so the suffix does not reflect the value's zone |
| EventDefinitions.ToDict | test/scout_bot/events/definitions.py:60-73 | exactly the keys symbol, event_type, occurred_at and metrics, holding the symbol, the type's value, the formatted time and the metrics |
| EventDetector.SpikeEvent | test/scout_bot/events/detector.py:86-102 | a reported event is a VOLUME_SPIKE for the symbol at the snapshot's time, carrying the ratio, the volume and the average |
| EventDetector.SpikeRule | test/scout_bot/events/detector.py:86-92 | VOLUME_SPIKE fires iff enabled, volume and average present, the average positive and the volume at least `ratio_min` times the average |
| EventDetector.TurnoverEvent | test/scout_bot/events/detector.py:115-127 | fires iff enabled and the turnover is present and at least `krw_min`; the event is a TURNOVER_THRESHOLD for the symbol carrying the turnover |
| EventDetector.HighBreakEvent | test/scout_bot/events/detector.py:135-152 | fires iff enabled, the day high present, the price at or above it and strictly above the last reported high of the symbol, if any |
| EventDetector.LowBreakEvent | test/scout_bot/events/detector.py:160-176 | fires iff enabled, the day low present, the price at or below it and strictly below the last reported low of the symbol, if any |
| EventDetector.BasePrice | test/scout_bot/events/detector.py:186-201 | none iff neither the previous close nor the day open is present; the configured day open when present, else the previous close, else the day open |
| EventDetector.ChangePctProductForm | test/scout_bot/events/detector.py:204-218 | a change of at least pct percent is a price of at least base times (1 + pct/100), and a change of at most -pct is a price of at most base times (1 - pct/100) |
| EventDetector.MoveKind | test/scout_bot/events/detector.py:207-228 | a jump iff the change reaches pct; a drop iff it does not and is at most -pct; nothing else |
| EventDetector.PriceMoveEvent | test/scout_bot/events/detector.py:183-228 | a reported event is for the symbol at the snapshot's time, carrying the price, the base under its kind and the change |
| EventDetector.PriceMoveRule | test/scout_bot/events/detector.py:183-228 | a move is reported iff enabled, a price and a positive base are present, and the change is at least pct or at most -pct; the event kind is `MoveKind` of the change |
| EventDetector.JumpDropExclusive | test/scout_bot/events/detector.py:207-228 | a change is never both a jump and a drop; with a non-negative threshold a jump is a rise and a drop a fall, each by at least the threshold |
| EventDetector.DisabledNeverFires | test/scout_bot/events/detector.py:87-184 | each of the five checks reports nothing when its `enabled` flag is false |
| EventDetector.FiveEvents | test/scout_bot/events/detector.py:62-234 | over the five checks' results in order, each kind counts as often as its check fired, and jumps and drops together at most once |
| EventDetector.DetectedAbout | test/scout_bot/events/detector.py:62-234 | nothing without a price; at most five events, all for the symbol at the snapshot's time |
| EventDetector.DetectedKinds | test/scout_bot/events/detector.py:62-234 | each kind is reported exactly once when its check fires and not at all otherwise; a jump and a drop are never reported together |
| EventDetector.HighBreakRecorded | test/scout_bot/events/detector.py:141-152 | a reported high is remembered and strictly above the one before; other symbols keep their entries; the remembered high never falls; the same snapshot does not fire again |
| EventDetector.LowBreakRecorded | test/scout_bot/events/detector.py:165-176 | a reported low is remembered and strictly below the one before; other symbols keep their entries; the remembered low never rises; the same snapshot does not fire again |
| EventDetector.CollectorSnapshots | test/scout_bot/events/detector.py:74-201 | with the collector's snapshots no volume spike is reported, the move is measured from the day open, and a high break needs the price to be the day high |
| EventDetector.Detector.constructor | test/scout_bot/events/detector.py:27-49 | keeps the collector, takes the given thresholds or those loaded from the configuration file, and starts with no remembered highs or lows |
| EventDetector.Detector.DetectEvents | test/scout_bot/events/detector.py:51-234 | the events are those `Detected` gives for the collector's snapshot, the remembered highs and lows are updated as stated, and the collector tracks the day range and leaves its histories alone |
| EventDetector.Detector.CheckVolumeSpike | test/scout_bot/events/detector.py:86-109 | the block reports exactly the spike check's event |
| EventDetector.Detector.CheckTurnover | test/scout_bot/events/detector.py:115-129 | the block reports exactly the turnover check's event |
| EventDetector.Detector.CheckHighBreak | test/scout_bot/events/detector.py:135-154 | the block reports the high-break check's event and remembers a reported high, leaving the lows alone |
| EventDetector.Detector.CheckLowBreak | test/scout_bot/events/detector.py:160-178 | the block reports the low-break check's event and remembers a reported low, leaving the highs alone |
| EventDetector.Detector.CheckPriceMove | test/scout_bot/events/detector.py:183-232 | the block reports exactly the price-move check's event |
| EventDataCollector.DefaultWindow | test/scout_bot/events/data_collector.py:111 | with the default thresholds the volume window is 10 minutes |
| EventDataCollector.SliceStart | test/scout_bot/events/data_collector.py:160 | where Python's `xs[-w:]` begins lies within the list |
| EventDataCollector.Trimmed | test/scout_bot/events/data_collector.py:154-160 | a suffix of the history: the last w values when longer than a positive window w, the whole list otherwise; the newest value is kept |
| EventDataCollector.Tracked | test/scout_bot/events/data_collector.py:83-101 | the price lies within the new range; the first price of the day opens a range of itself; later prices keep the open and widen the high and low to include the price |
| EventDataCollector.TrackedAllIsRunningRange | test/scout_bot/events/data_collector.py:83-101 | over a day's prices from no range, the open is the first price, every price lies between low and high, and the high is one of the prices |
| EventDataCollector.AvgVolume | test/scout_bot/events/data_collector.py:109-114 | present iff the history holds at least max(5, window // 2) values; it is then the mean of the history |
| EventDataCollector.Latest | test/scout_bot/events/data_collector.py:209-212 | absent iff the history is empty, else its last value |
| EventDataCollector.TakeSnapshot | test/scout_bot/events/data_collector.py:50-144 | for the symbol at the given time; the empty snapshot for a missing or non-positive price; never a volume or previous close; for a valid price, the tracked range around it, the latest turnover and the warm-up average |
| EventDataCollector.Collector.constructor | test/scout_bot/events/data_collector.py:23-48 | the given thresholds or those loaded from the configuration file, and no ranges or histories |
| EventDataCollector.Collector.CollectSnapshot | test/scout_bot/events/data_collector.py:50-144 | returns `TakeSnapshot` of the state; a valid price updates this symbol's day range and nothing else changes |
| EventDataCollector.Collector.UpdateVolumeHistory | test/scout_bot/events/data_collector.py:146-160 | the symbol's volume history becomes the old one plus the value, trimmed to the window; nothing else changes |
| EventDataCollector.Collector.UpdateTurnoverHistory | test/scout_bot/events/data_collector.py:162-176 | the same for turnover; with a non-negative window the latest turnover is then the value just added |
| EventDataCollector.Collector.CalculateVolumeSpikeRatio | test/scout_bot/events/data_collector.py:178-197 | absent with fewer than five values or a zero total; otherwise the ratio times the mean gives back the current volume |
| EventDataCollector.Collector.GetLatestTurnover | test/scout_bot/events/data_collector.py:199-212 | the last recorded turnover of the symbol, absent when there is none |
| Cooldown.ActiveInSeconds | test/scout_bot/events/cooldown.py:58-59 | a record holds exactly while fewer than minutes × 60 seconds have passed |
| Cooldown.Unexpired | test/scout_bot/events/cooldown.py:75-82 | keeps exactly the records still active at `now`, with their times unchanged |
| Cooldown.DefaultConfiguredMinutes | test/scout_bot/events/cooldown.py:27-35 | without a configuration file the hold is the default ten minutes |
| Cooldown.CooldownManager.constructor | test/scout_bot/events/cooldown.py:22-39 | the given hold or the configured one, and no records |
| Cooldown.CooldownManager.IsCooldown | test/scout_bot/events/cooldown.py:41-59 | true iff the pair was recorded and fewer than the hold's minutes have passed since |
| Cooldown.CooldownManager.RecordEvent | test/scout_bot/events/cooldown.py:61-71 | the pair's last time becomes the given one; no other pair changes |
| Cooldown.CooldownManager.CleanupExpired | test/scout_bot/events/cooldown.py:73-82 | the map becomes exactly its unexpired records |
| Cooldown.CooldownManager.Clear | test/scout_bot/events/cooldown.py:84-86 | no records remain |
| Cooldown.NeverRecordedNotCooling | test/scout_bot/events/cooldown.py:52-56 | a pair never recorded is never held back |
| Cooldown.RecordStartsCooldown | test/scout_bot/events/cooldown.py:61-71 | right after a record the pair is held back iff the hold is positive, and no other pair's answer changes |
| Cooldown.CooldownExpires | test/scout_bot/events/cooldown.py:41-59 | a pair is held back only before its record time plus the hold, and never from then on |
| Cooldown.CleanupPreservesAnswers | test/scout_bot/events/cooldown.py:73-82 | cleaning up changes no answer at the same time, keeps exactly the pairs held back, and a second cleanup changes nothing |
| EventStats.TruthyKey | test/scout_bot/events/stats.py:82-89 | a field counts as a key iff it is present and non-empty, and the key is the field itself |
| EventStats.TallySnoc | test/scout_bot/events/stats.py:77-94 | one more event bumps the counter of its key by one, or leaves the counters alone when it has none |
| EventStats.TallyCounts | test/scout_bot/events/stats.py:77-101 | a key is in the counter iff some event has it, and its count is the number of events with it |
| EventStats.OccurrencesWitness | test/scout_bot/events/stats.py:77-86 | a key occurs iff some event carries it |
| EventStats.TallySum | test/scout_bot/events/stats.py:70-101 | the counts add up to the number of events with a key, which is at most the number of events |
| EventStats.RemoveAll | test/scout_bot/events/stats.py:92 | `replace(pat, "")` never lengthens the text |
| EventStats.RemoveAllPrefix | test/scout_bot/events/stats.py:92 | a prefix free of the pattern's first character passes through unchanged |
| EventStats.IsoHour | test/scout_bot/events/stats.py:92-93 | a parsed hour is below 24 and comes from a text at least ten characters long |
| EventStats.HourKey | test/scout_bot/events/stats.py:89-96 | an hour below 24, and none when the time field is absent or empty |
| EventStats.AggregateEventStats | test/scout_bot/events/stats.py:60-103 | the total is the number of events, and the three counters are the tallies by type, by symbol and by parsed hour |
| EventStats.AggregateEmpty | test/scout_bot/events/stats.py:70-75 | no events give total 0 and three empty counters |
| EventStats.AggregateBounds | test/scout_bot/events/stats.py:70-101 | no counter's total exceeds the number of events, and every hour is below 24 |
| EventStats.TypeCounted | test/scout_bot/events/stats.py:82-83 | a type is counted iff some event has it, by the number of such events |
| EventStats.UnparsableTimeSkipped | test/scout_bot/events/stats.py:89-96 | an event whose time does not parse leaves the hourly counter unchanged and still adds to the total |
| EventStats.NatToStringValue | test/scout_bot/events/stats.py:92-93 | a number written in decimal reads back as the same number |
| EventStats.Pad2Value | test/scout_bot/events/stats.py:92-93 | a two-digit padded number is digits and reads back as the number |
| EventStats.IsoTextSlices | test/scout_bot/events/stats.py:92 | the pieces of a `Y-M-DTH:Mi:S` text sit at fixed positions |
| EventStats.IsoHourOfText | test/scout_bot/events/stats.py:92-93 | a well-formed text for a real calendar date and time parses to its hour |
| EventStats.IsoTextNoPlus | test/scout_bot/events/stats.py:92 | a text of digits and separators contains no '+' |
| EventStats.OccurredAtText | test/scout_bot/events/definitions.py:67 | the logged time is the plain ISO text followed by "+09:00" |
| EventStats.OccurredAtHourRoundTrip | test/scout_bot/events/stats.py:89-94 | for a real calendar date, the time an event writes, with the offset removed, parses back to the event's hour |
| ConfigLoaders.MergeProgressStep | test/scout_bot/config/loaders.py:131-137 | one step of the merge loop: the key's old value is the default's, and after the update the loop state holds with the key done |
| ConfigLoaders.MergeProgressDone | test/scout_bot/config/loaders.py:129-139 | when no user key remains, the result is the merge |
| ConfigLoaders.MergeConfig | test/scout_bot/config/loaders.py:118-139 | returns the recursive merge of the defaults and the user's settings |
| ConfigLoaders.MergedKeys | test/scout_bot/config/loaders.py:129-137 | the keys are those of either side; a key only in the defaults keeps its value; a user value wins unless both sides hold a mapping |
| ConfigLoaders.MergedNeutral | test/scout_bot/config/loaders.py:118-139 | merging with nothing, or with itself, gives the document back |
| ConfigLoaders.LoadEventThresholds | test/scout_bot/config/loaders.py:83-115 | the defaults unless the file parses to a mapping, and then the defaults merged with it; every default key is present |
| ConfigLoaders.Section | test/scout_bot/events/detector.py:86 | `get(key, {})` is empty when the key is missing |
| PostMarketAnalyzer.ValidCandidates | test/framework/analyzer/post_market_analyzer.py:186-189 | exactly the candidates that are strings naming one of the four valid exit types |
| PostMarketAnalyzer.FirstByPriority | test/framework/analyzer/post_market_analyzer.py:195-197 | a found type is a priority that is among the valid ones; none only when no priority is |
| PostMarketAnalyzer.SelectExitType | test/framework/analyzer/post_market_analyzer.py:163-200 | a selected type is one of the four valid exit types and one of the candidates |
| PostMarketAnalyzer.FirstByPriorityAt | test/framework/analyzer/post_market_analyzer.py:195-197 | the first priority present among the valid types is the answer |
| PostMarketAnalyzer.SelectExitTypeRule | test/framework/analyzer/post_market_analyzer.py:141-200 | a type is selected iff some candidate is valid, and it is the highest in the order manual_stop, reached_1pct, timeout, no_reaction |
| PostMarketAnalyzer.SelectExitTypeNone | test/framework/analyzer/post_market_analyzer.py:173-192 | none for an absent, empty or other-kind value, for an empty list, and for a list without a valid type |
| PostMarketAnalyzer.FindOpen | test/framework/analyzer/post_market_analyzer.py:274 | a found position holds the stock's open cycle; none when no open cycle is for the stock |
| PostMarketAnalyzer.RemoveAt | test/framework/analyzer/post_market_analyzer.py:331 | `del` on an insertion-ordered dictionary: one shorter, the remaining cycles in order |
| PostMarketAnalyzer.OpenedFacts | test/framework/analyzer/post_market_analyzer.py:274-290 | step 4 keeps one open cycle per stock; the stock is open afterwards iff it was or the record triggered; no other stock changes |
| PostMarketAnalyzer.RemoveAtFacts | test/framework/analyzer/post_market_analyzer.py:331 | removing keeps one open cycle per stock, closes that stock and no other |
| PostMarketAnalyzer.StepRule | test/framework/analyzer/post_market_analyzer.py:274-341 | one record keeps one open cycle per stock; an idle stock opens only on a trigger; a valid exit type closes the stock's cycle, appending one cycle with that type and this record's index; an invalid or missing one leaves it open; other stocks are untouched |
| PostMarketAnalyzer.RunWellFormed | test/framework/analyzer/post_market_analyzer.py:232-361 | every state the walk reaches has one open cycle per stock at most, and every closed cycle a valid exit type |
| PostMarketAnalyzer.SessionEnded | test/framework/analyzer/post_market_analyzer.py:378-386 | a cycle still open at the end closes as a "timeout" with end reason "session_end" |
| PostMarketAnalyzer.SessionEndedAll | test/framework/analyzer/post_market_analyzer.py:378-386 | every open cycle, in order, closed as a session-end timeout |
| PostMarketAnalyzer.OpenOrCount | test/framework/analyzer/post_market_analyzer.py:274-290 | step 4 on the open cycles, as `Opened` |
| PostMarketAnalyzer.CloseOnExit | test/framework/analyzer/post_market_analyzer.py:295-341 | step 5 on the open and closed cycles, as `CloseStep` |
| PostMarketAnalyzer.AggregateObservers | test/framework/analyzer/post_market_analyzer.py:83-464 | on records in timestamp order, returns the counters, the cycles closed by the walk followed by the session-end cycles, their number and the open count |
| PostMarketAnalyzer.CloseAtSessionEnd | test/framework/analyzer/post_market_analyzer.py:378-386 | the closed cycles followed by each open cycle closed as a session-end timeout |
| PostMarketAnalyzer.CountReasons | test/framework/analyzer/post_market_analyzer.py:358-360 | each listed reason counted once more |
| PostMarketAnalyzer.CountStockEntry | test/framework/analyzer/post_market_analyzer.py:250-355 | a stock's counters after one more of its records |
| PostMarketAnalyzer.CountTrigger | test/framework/analyzer/post_market_analyzer.py:255-269 | a triggered record adds one to the count, marks its stock and, with a timestamp, lists a trigger |
| PostMarketAnalyzer.CountRecord | test/framework/analyzer/post_market_analyzer.py:250-360 | all of one record's counters, as `CountStep` |
| PostMarketAnalyzer.TriggeredCountSnoc | test/framework/analyzer/post_market_analyzer.py:257-258 | one more record adds one triggered record iff it triggered |
| PostMarketAnalyzer.CountRunTriggers | test/framework/analyzer/post_market_analyzer.py:255-260 | the triggered-record count is the number of triggered records, and a stock is marked iff one of its records triggered |
| PostMarketAnalyzer.ObserverStatsFacts | test/framework/analyzer/post_market_analyzer.py:103-464 | total_records is the number of records; triggered records are counted once each; every listed cycle has one valid exit type; the last open_cycles_count cycles are session-end timeouts; no records give no cycles |
| PostMarketAnalyzer.OpenCyclesDistinct | test/framework/analyzer/post_market_analyzer.py:274-290 | the cycles open at the end are for distinct stocks |
| PostMarketAnalyzer.Rate | test/framework/analyzer/post_market_analyzer.py:598-607 | 0 for no records; otherwise the part as a percentage of the total, between 0 and 100 when the part is at most the total |
| PostMarketAnalyzer.RateAtLeast | test/framework/analyzer/post_market_analyzer.py:598-602 | for a positive total, a rate threshold is the product test part × 100 ≥ k × total |
| PostMarketAnalyzer.GenerateMarketCharacterSummary | test/framework/analyzer/post_market_analyzer.py:586-654 | none exactly when the first record has no date; otherwise the number of records, the trigger and box rates of the counters, and the number of triggered stocks |
| PostMarketAnalyzer.MarketCharacterBands | test/framework/analyzer/post_market_analyzer.py:609-642 | ACTIVE iff the rate is at least 20, MODERATE from 10, QUIET from 5, DEAD below 5; no records give rate 0, DEAD and an empty date |
| PostMarketAnalyzer.MarketCharacterOfWalk | test/framework/analyzer/post_market_analyzer.py:593-623 | with the walk's counters the rate is between 0 and 100, and the day is ACTIVE iff at least one record in five triggered |
| CycleAnalyzer.CountIfZero | test/framework/analyzer/cycle_analyzer_enhanced.py:66-102 | nothing is counted iff no element qualifies |
| CycleAnalyzer.AssessDataQuality | test/framework/analyzer/cycle_analyzer_enhanced.py:41-125 | the one-pass count over the records gives the verdict `QualityOf` of the records |
| CycleAnalyzer.QualityFailRule | test/framework/analyzer/cycle_analyzer_enhanced.py:90-102 | FAIL iff no record carries a price, or none a positive volume, a positive turnover or an observer; the FAIL reasons are one to four missing kinds; no records give FAIL with all four reasons |
| CycleAnalyzer.WarnReasonsRule | test/framework/analyzer/cycle_analyzer_enhanced.py:104-120 | for at least one record, no WARN reason iff at least four in five records have a price and at least half a volume and half a turnover; no WARN reason is a missing kind |
| CycleAnalyzer.QualityWarnRule | test/framework/analyzer/cycle_analyzer_enhanced.py:104-125 | the reasons are empty iff PASS; WARN iff every kind is present somewhere and the price share is under 80% or the volume or turnover share under 50% |
| CycleAnalyzer.PositivePrices | test/framework/analyzer/cycle_analyzer_enhanced.py:152-156 | every kept price is positive, every record's positive price is kept, and none are kept iff no record has a positive price |
| CycleAnalyzer.SeqMax | test/framework/analyzer/cycle_analyzer_enhanced.py:169 | `max`: an element of the list at least every element |
| CycleAnalyzer.SeqMin | test/framework/analyzer/cycle_analyzer_enhanced.py:170 | `min`: an element of the list at most every element |
| CycleAnalyzer.ExtractCyclePriceInfo | test/framework/analyzer/cycle_analyzer_enhanced.py:131-188 | collects the positive prices in one pass and returns `PriceInfoOf` the records |
| CycleAnalyzer.ReturnPctMonotone | test/framework/analyzer/cycle_analyzer_enhanced.py:174-176 | a larger price has a return at least as large |
| CycleAnalyzer.PriceInfoFromBounds | test/framework/analyzer/cycle_analyzer_enhanced.py:167-180 | from positive prices: start and end are the first and last, min return ≤ 0 ≤ max return, the amplitude is their difference, and every price's return lies between them |
| CycleAnalyzer.PriceInfoBounds | test/framework/analyzer/cycle_analyzer_enhanced.py:152-188 | with no positive price all figures are 0 and no prices; otherwise the returns from the first positive price satisfy the bounds above for every record's price, and the amplitude is never negative |
| CycleAnalyzer.CountObserverEvents | test/framework/analyzer/cycle_analyzer_enhanced.py:194-254 | the change counters are `ChangesOf` the records, and event_count is their sum |
| CycleAnalyzer.ChangesBounded | test/framework/analyzer/cycle_analyzer_enhanced.py:220-249 | each counter changes at most once per record, so event_count ≤ 3 × records |
| CycleAnalyzer.FlagChangeParity | test/framework/analyzer/cycle_analyzer_enhanced.py:231-242 | the box and base-candle counters are odd iff the last record has the flag set |
| CycleAnalyzer.TickTotal | test/framework/analyzer/cycle_analyzer_enhanced.py:226-242 | one comparison adds nothing iff all three flags match the previous state |
| CycleAnalyzer.AllQuietSnoc | test/framework/analyzer/cycle_analyzer_enhanced.py:220-249 | a list is quiet iff its prefix is and its last record is quiet |
| CycleAnalyzer.QuietStateBefore | test/framework/analyzer/cycle_analyzer_enhanced.py:218-249 | after a quiet list, the next record is compared with the initial state or with all flags false |
| CycleAnalyzer.NoChangesRule | test/framework/analyzer/cycle_analyzer_enhanced.py:211-254 | event_count is 0 iff every record is quiet: no box, no base candle, and a trigger absent at first and false after |
| CycleAnalyzer.ClassifyTimeoutSubtype | test/framework/analyzer/cycle_analyzer_enhanced.py:260-298 | NEAR_TARGET iff a timeout with best return at least 0.7; LOW_SIGNAL iff a timeout below 0.7 that is not NO_EVENT, the subtype decided first |
| CycleAnalyzer.Normalized | test/framework/analyzer/cycle_analyzer_enhanced.py:327-329 | capped at 1, and not negative for a non-negative value |
| CycleAnalyzer.InfoScore | test/framework/analyzer/cycle_analyzer_enhanced.py:304-343 | between 0 and 100, and 0 for FAIL |
| CycleAnalyzer.InfoScoreRule | test/framework/analyzer/cycle_analyzer_enhanced.py:26-35 | WARN scores 0.7 of PASS; PASS scores 100 iff there are at least 10 changes, a 5% amplitude and a 3% best return; nothing scores 0 |
| CycleAnalyzer.InfoScoreMonotone | test/framework/analyzer/cycle_analyzer_enhanced.py:322-341 | more changes never lower the score |
| CycleAnalyzer.EnhanceOne | test/framework/analyzer/cycle_analyzer_enhanced.py:452-493 | the entry carries the quality of its records and a score within 0..100 |
| CycleAnalyzer.EnhanceCycleAnalysis | test/framework/analyzer/cycle_analyzer_enhanced.py:447-499 | the kept cycles are `KeptOf` the input, the set-aside ids are `FailIdsOf` it, and fail_cycles_count is their number |
| CycleAnalyzer.EnhancementPartition | test/framework/analyzer/cycle_analyzer_enhanced.py:448-499 | kept and set-aside cycles add up to all cycles; without exclude_fail nothing is set aside |
| CycleAnalyzer.KeptCyclesRule | test/framework/analyzer/cycle_analyzer_enhanced.py:455-493 | with exclude_fail no kept cycle is FAIL, and every kept score is within 0..100 |
| CycleAnalyzer.FailIdsRule | test/framework/analyzer/cycle_analyzer_enhanced.py:455-458 | an id is listed iff exclude_fail is set and some FAIL cycle has that id |
| CycleAnalyzer.MemoFromRule | test/framework/analyzer/cycle_analyzer_enhanced.py:667-680 | the rules in counts: "weak and sparse" iff more than half the timeouts had no event and the mean amplitude is below 1; else "near miss" iff a near-target timeout exists; else "noisy" iff over 3 changes per cycle on that low amplitude; else "high volatility" above 2 |
| CycleAnalyzer.GenerateMarketMemo | test/framework/analyzer/cycle_analyzer_enhanced.py:636-680 | "no data" iff there are no cycles; "no timeout" iff there are cycles and none timed out |
| CycleAnalyzer.MarketMemoNearMiss | test/framework/analyzer/cycle_analyzer_enhanced.py:657-672 | "near miss" needs a near-target timeout, and such a timeout leaves only "weak and sparse" or "near miss" |
| DailyReportBuilder.CountExit | test/framework/analyzer/daily_report_builder.py:82-91 | a count of cycles is never more than the cycles |
| DailyReportBuilder.CountOutcomes | test/framework/analyzer/daily_report_builder.py:79-91 | the loop over the closed cycles yields `OutcomesOf` them |
| DailyReportBuilder.OutcomeCounts | test/framework/analyzer/daily_report_builder.py:79-91 | each counter is the number of cycles with its own exit type, and the four add up to the cycles with a counted type, never more than all cycles |
| DailyReportBuilder.TallyStep | test/framework/analyzer/daily_report_builder.py:83-91 | one cycle raises only the counter of its exit type, and any other type changes nothing |
| DailyReportBuilder.CountIfCounted | test/framework/analyzer/daily_report_builder.py:82-91 | a count of cycles is never more than the cycles |
| DailyReportBuilder.FirstTwo | test/framework/analyzer/daily_report_builder.py:97 | `[:2]`: a prefix of at most two, exactly two when there are that many, all of a shorter list |
| DailyReportBuilder.BuildRepresentatives | test/framework/analyzer/daily_report_builder.py:94-122 | the loop over the first two summary entries yields their representatives, skipped ones left out |
| DailyReportBuilder.RepresentativesFromRule | test/framework/analyzer/daily_report_builder.py:97-122 | skipping never adds entries, each representative is an entry's own, and with nothing skipped they are the entries' one for one |
| DailyReportBuilder.RepresentativesRule | test/framework/analyzer/daily_report_builder.py:94-122 | at most two representatives, all from the first two entries, and as many as those entries when none is skipped |
| DailyReportBuilder.BumpRule | test/framework/analyzer/daily_report_builder.py:133-136 | `counts.get(k, 0) + 1` raises k's count by one and nothing else, keeps the keys distinct, and appends k only when new |
| DailyReportBuilder.KeysIn | test/framework/analyzer/daily_report_builder.py:127-136 | the keys are the first components, in order |
| DailyReportBuilder.ExitCountsRule | test/framework/analyzer/daily_report_builder.py:131-136 | the counts hold each non-empty exit type with its number of cycles, the empty type never, and distinct keys |
| DailyReportBuilder.MaxItem | test/framework/analyzer/daily_report_builder.py:159-161 | `max` by count: a pair of the counts, at least every count, and the first such pair |
| DailyReportBuilder.Durations | test/framework/analyzer/daily_report_builder.py:138-155 | no more durations than cycles |
| DailyReportBuilder.BuildHints | test/framework/analyzer/daily_report_builder.py:124-174 | the loop over the closed cycles yields `HintsOf` them |
| DailyReportBuilder.DurationsRule | test/framework/analyzer/daily_report_builder.py:138-155 | no durations iff no cycle has two parseable times, and each duration is a cycle's |
| DailyReportBuilder.DominantRule | test/framework/analyzer/daily_report_builder.py:157-161 | no dominant type iff no cycle has a non-empty exit type; otherwise it is a non-empty type no other type outnumbers |
| DailyReportBuilder.MeanDurationRule | test/framework/analyzer/daily_report_builder.py:163-167 | no mean iff no cycle was measured; the mean lies within any bounds all durations respect |
| DailyReportBuilder.LookupIn | test/framework/analyzer/daily_report_builder.py:134-136 | with distinct keys a present key's stored pair carries its count |
| DailyReportBuilder.NoKeysNoExits | test/framework/analyzer/daily_report_builder.py:158 | no counts iff no cycle has a non-empty exit type |
| DailyReportBuilder.BumpNonEmpty | test/framework/analyzer/daily_report_builder.py:133-136 | after a bump the counts are not empty |
| DailyReportBuilder.BuildDailyReport | test/framework/analyzer/daily_report_builder.py:27-193 | the report is `DailyReportOf` the inputs |
| DailyReportBuilder.ReportRule | test/framework/analyzer/daily_report_builder.py:57-68 | stocks are copied one by one with missing counts as 0 and counted; the zones are empty and the notes unset; with no closed cycles the counters are 0 and the hints unset |
| ScoutRecord.OrDict | test/framework/record/scout_record.py:47-54 | `given or default`: a non-empty section is kept, a missing or empty one replaced |
| ScoutRecord.BuildScoutRecordV2 | test/framework/record/scout_record.py:18-58 | the meta section carries schema version v2, the caller's identity, session and cap flag and the clock's date, time and timestamp |
| ScoutRecord.SectionDefaults | test/framework/record/scout_record.py:47-55 | a missing observer, base-candle or box section reads as untriggered, absent and unformed, each flag follows the caller's section, and the other sections default to empty |
| ConditionStore.SyncedRule | research/condition_store.py:14-29 | after a sync exactly the listed stocks have entry times; a stock that stays keeps its time and a new one gets the current time |
| ConditionStore.Store.constructor | research/condition_store.py:6-7 | no stocks and no entry times |
| ConditionStore.Store.SetStocks | research/condition_store.py:14-29 | the stocks become the list, the entry times those of the sync, and every listed stock keeps an entry time |
| ConditionStore.Store.AddStock | research/condition_store.py:77-82 | the stock is listed; a new one gets the current time and a listed one keeps its time |
| ConditionStore.Store.RemoveStock | research/condition_store.py:71-74 | the stock and its time are gone and everything else stays |
| ConditionStore.Store.ClearStocks | research/condition_store.py:46-49 | no stocks and no entry times |
| ConditionStore.Store.GetEnterTime | research/condition_store.py:63-65 | a time exactly for a listed stock |
| OrderTracker.LastFor | test/order/order_tracker.py:23-30 | the last line about an order is one of the lines, and there is none iff no line names it |
| OrderTracker.AppliedRule | test/order/order_tracker.py:23-30 | a report neither adds nor removes orders nor changes symbol or quantity; fill and status come from the last line about the order; unmentioned orders are untouched |
| OrderTracker.Tracker.constructor | test/order/order_tracker.py:12-13 | no orders |
| OrderTracker.Tracker.Register | test/order/order_tracker.py:15-21 | the order is stored open and unfilled with its symbol and quantity, replacing any earlier entry |
| OrderTracker.Tracker.Update | test/order/order_tracker.py:23-30 | the orders become `Applied` to the report |
| OrderTracker.Tracker.GetOpenOrders | test/order/order_tracker.py:32-36 | exactly the orders whose status is not FILLED, unchanged |
| Holding.Book.constructor | test/holding.py:13 | an empty book |
| Holding.Book.AddHolding | test/holding.py:16-24 | the code's entry is set or overwritten and nothing else changes |
| Holding.Book.RemoveHolding | test/holding.py:27-33 | the code is dropped and nothing else changes |
| Holding.Book.GetHolding | test/holding.py:36-40 | an entry exactly for a held code, and it is the stored one |
| Holding.Book.ResetAll | test/holding.py:50-55 | an empty book |
| StrategyState.EmptyState | live/strategy_state.py:16-47 | exactly the sixteen template fields, stage NONE, every other field unset or false |
| StrategyState.PatchedKeeps | live/strategy_state.py:68-69 | setting fields keeps every field, adds those named, and leaves unnamed ones as they were |
| StrategyState.PatchedSets | live/strategy_state.py:68-69 | a named field takes the value of the last update naming it |
| StrategyState.Dump | live/strategy_state.py:93-98 | an unknown stock gives the "no state" marker |
| StrategyState.Store.constructor | live/strategy_state.py:9 | no stock has a state |
| StrategyState.Store.GetState | live/strategy_state.py:53-57 | the stored state, or the template stored for an unknown stock |
| StrategyState.Store.UpdateState | live/strategy_state.py:63-71 | the stock's state is its state or the template, with the given fields set and the update time stamped; other stocks unchanged |
| StrategyState.Store.ResetState | live/strategy_state.py:77-79 | this stock gets the template and the others are unchanged |
| StrategyState.Store.ResetAllStates | live/strategy_state.py:85-87 | no stock has a state |
| StrategyState.UpdateRule | live/strategy_state.py:63-71 | after an update the time is stamped and a field no update names keeps its earlier or template value |
| ConditionStats.SuccessRate | test/condition_stats.py:33 | 0 with no entries, never negative; with entries it is 0 iff nothing was bought and at most 100 iff no more purchases than entries |
| ConditionStats.Stats.constructor | test/condition_stats.py:12-13 | both sets empty |
| ConditionStats.Stats.RecordConditionEnter | test/condition_stats.py:16-17 | the stock joins the entered set; the bought set is unchanged |
| ConditionStats.Stats.RecordBuySuccess | test/condition_stats.py:20-21 | the stock joins the bought set; the entered set is unchanged |
| ConditionStats.Stats.DailyStats | test/condition_stats.py:24-45 | the summary carries the date, the sizes of both sets and their success rate |
| ConditionStats.Stats.ResetDailyStats | test/condition_stats.py:48-50 | both sets empty |
| ConditionStats.RecordTwice | test/condition_stats.py:16-21 | recording twice equals recording once; the count rises only for a new stock |
| LiveAccount.AccountState.constructor | live/account/account_state.py:22-26 | the reported cash capped at the limit, and the reported holdings |
| LiveAccount.AccountState.Refresh | live/account/account_state.py:31-42 | the cash becomes min(reported cash, limit) and the holdings the reported ones |
| LiveAccount.AccountState.PositionQty | live/account/account_state.py:53-59 | 0 for a symbol not held, otherwise its quantity |
| LiveAccount.AccountState.HoldingCount | live/account/account_state.py:61-65 | the number of symbols held, 0 iff none is held |
| TestAccount.AccountState.constructor | test/account/account_state.py:8-13 | no holdings; zero cash in test mode or for zero reported cash, otherwise the capped cash |
| TestAccount.AccountState.Refresh | test/account/account_state.py:15-22 | nothing changes in test mode or for zero reported cash; otherwise the cash becomes min(reported, limit); holdings never change |

## Left out

- **I/O.** The model takes file contents as parsed values and leaves out the
  reads and writes themselves. That covers:
  - reading and writing JSON, JSON-lines, CSV and YAML files;
  - directory scans and globbing;
  - the archiving of old signal files (`archive_old_signals`);
  - `save_daily_report`, `save_scout_record` and the report writers.

  Only their effect on the modelled values appears: a missing or unreadable
  file, and whether a save succeeded.
- **Clock, broker and market data.** The wall clock, the broker REST calls,
  the market-data (pykrx) fetches and the Telegram sends are parameters or
  are not modelled. `load_candidate_pool` and `collect_ohlcv_batch` are not
  modelled either, because they are file reading and the API fetch.
- **Concurrency.** The threading locks around the condition store, the
  strategy state and the research risk state are modelled as sequential
  calls.
- **Printing.** Printing and logging are not modelled. That includes the
  warning printed for an unknown exit type and the debug output of the
  analyzers.
- **Plotting.** The matplotlib chart of the cumulative profit is not
  modelled.
- **Floating point.**
  - Scores, rates and prices are exact reals, so float rounding is not
    modelled.
  - The `round(..., 2)` calls in the post-market and cycle analyzers are
    not modelled, and the bounds are stated for the unrounded values. This
    covers `CycleAnalyzer.ExtractCyclePriceInfo`, `CycleAnalyzer.InfoScore`
    and `PostMarketAnalyzer.Rate`.
  - `DailyScan.RecordOf` rounds the stored volume ratio with
    `Numeric.Round2`, which rounds the exact value half-to-even. Python
    rounds the binary float, so a value whose decimal form ends in exactly
    5 at the third decimal may round the other way there.
  - NaN appears only as an absent value (`None`), where the source produces
    it explicitly. The price columns the scan filters read are taken to hold
    no NaN.
- **Selector numerics.**
  - `Selector.ComputeFeatures`: the logistic sigmoid and the population
    standard deviation are abstract functions.
  - The pandas rolling means and `pct_change` arrive as inputs of the
    feature row.
- **Selector sort.** `Selector.SortDesc` uses a stable sort, so equal scores
  keep universe order. pandas' default sort does not promise that order for
  ties.
- **Dates and times.**
  - Dates are strings and times are seconds or hour and minute.
  - ISO parsing accepts the forms the records use: a date, or a date with a
    time and an optional `+09:00` offset. Fractional seconds, other offsets
    and day-of-month validation are not modelled.
  - `EventDefinitions.FormatOccurredAt` takes the date and time already
    split.
- **Text.**
  - `Text.Lower` lowers ASCII letters only.
  - `isdigit` accepts ASCII digits only.
  - Unicode case folding and normalisation are not modelled.
- **JSON and YAML values.**
  - Values other than the modelled kinds read as missing.
  - Numeric symbols in the manual-additions document and non-string YAML
    keys are not modelled.
  - `ConfigLoaders.Section`: a non-mapping value under a section key reads as
    an empty section, where the source would fail.
  - A non-numeric threshold reads as its default.
- **Watchlist loader.**
  - `WatchlistLoader.LoadWatchlist` takes rows already typed: the score is a
    number and the tags are a text or absent. The source raises where the
    model cannot: `float()` on a non-numeric `score_total`, `.strip()` on the
    `None` a short row leaves under `source_tags`, and a missing `code` or
    `watch_tier` column. The model reads an absent tags value as empty.
- **Post-market analyzer.**
  - Records arrive in timestamp order. The sort by timestamp is done by the
    caller and is not modelled.
  - The per-cycle `cycle_summary` list, with its durations from parsed
    timestamps, is not modelled.
  - `PostMarketAnalyzer.GenerateMarketCharacterSummary` returns `None` where
    the source raises, which is when the first record has no date.
- **Enhanced cycle analysis.**
  - The grouping of records into cycles (`records_by_cycle`) is not modelled.
    `CycleAnalyzer.EnhanceCycleAnalysis` takes each cycle with its records
    already grouped.
  - `get_slot_type`, `calculate_enhanced_statistics` and
    `generate_summary_by_group` are not modelled. They are float statistics
    (means, medians, standard deviations) over the kept cycles.
  - The data-quality reason texts are kinds carrying their ratio, so the
    percentage formatting is not modelled.
- **Daily report.**
  - Times are seconds on one clock, so naive and zone-aware datetimes are not
    told apart.
  - `DailyReportSchema` records have no behaviour beyond their defaults.
- **Aliasing.**
  - `StrategyState.Store.GetState` returns the state as a value. In the
    source the returned dictionary is the stored one, and a caller's writes
    to it reach the store; the model does not capture that.
  - `Holding.Book.GetHolding` and `Holding.Book.GetAllHoldings` also return
    values.
- **Orchestration.** The async main loops, schedulers, websockets, chat-bot
  command handlers, ML placeholders and maintenance scripts are outside the
  modelled core.
