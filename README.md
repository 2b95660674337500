# TradeReplay in Dafny

TradeReplay is a day-by-day backtester for equity strategies. It works like this:

- A `DataLoader` cleans and date-sorts a table of daily OHLC rows, one row per instrument per date, and exposes the distinct trading dates.
- A `Session` walks those dates from a start date to an end date. Each day it hands that day's rows to a strategy.
- The strategy here is the EMA crossover strategy. It buys on a fast-over-slow EMA crossover and exits at a stop or a profit target.
- The strategy trades through a `Portfolio`. The portfolio keeps cash and holdings with average prices, and charges brokerage plus a flat DP charge per order.
- Every executed order is appended to a `TradeBook`, with the cash and invested amount right after the order. The tradebook is written out as CSV at the end of the run.
- An `IndicatorEngine` computes SMA and EMA over the closing-price history of a symbol, with a cache. It also resolves custom and TA-Lib indicators by name.
- `MultiSession` splits the symbol list into chunks, one per worker process.

The model is split into these files:

| file | module | models |
|---|---|---|
| `wrappers.dfy` | `Wrappers` | `Option`, `Result`, and the Python exceptions that the core raises |
| `ledger.dfy` | `Ledger` | `TradeBook`: a `trades` sequence that `RegisterTrade` appends to and `Save` writes out |
| `accounts.dfy` | `Accounts` | `Portfolio`, a class whose methods update `cash`, `holdings` and the tradebook |
| `market.dfy` | `MarketData` | column cleanup, the date sort, unique dates, and `DataLoader`'s date navigation |
| `indicators.dfy` | `Indicators` | price history, SMA/EMA, indicator lookup by name, and `IndicatorEngine` with its cache |
| `crossover.dfy` | `Crossover` | `EMACrossoverStrategy.decide` as a loop over the day's rows |
| `replay.dfy` | `Replay` | `Session`: its construction, the date walk and `run` |
| `sharding.dfy` | `Sharding` | `_make_symbol_chunks` |

Each class's imperative methods are proved against pure specification functions:

| method | specified by |
|---|---|
| `Portfolio.Buy` / `Sell` | `BuyStep` / `SellStep` and the `BuyLog` / `SellLog` trades they record |
| `EMACrossoverStrategy.Decide` | a fold of `RowStep` over the day's rows (`DaySteps`) |
| `Session.Run` | a fold of `DaySteps` over the collected dates (`RunDays`) |
| `Session.CollectDates` | `Window`, the trading dates between the start and the end |

Separate lemmas then prove what the source promises about those functions:

- Holdings and cash agree with the ledger.
- A buy conserves value minus charges.
- Exits are target-first.
- Indicators are causal: they ignore rows of later dates and of other symbols.
- The date walk visits exactly the trading dates in the range.
- The symbol chunks concatenate back to the symbol list.

Modelling conventions:

- Prices and amounts are `real`.
- Dates are `int`; only their order is used.
- A table row is a `Row` with typed `date`, `instrument`, `open`, `high`, `low`, `close` and `volume`, plus a map of extra numeric columns such as the EMA columns.
- Python errors that the code can raise are `Err(...)` results. These are `ValueError` from `list.index`, from a `range()` step of 0 and from an `ewm` span below 1, `IndexError` from indexing an empty array, `AttributeError` from a failed indicator lookup and `ZeroDivisionError`.

## Model

| member | source | states |
|---|---|---|
| Ledger.SavedFile | TradeReplay/tradebook.py:30-37 | nothing is written exactly when there are no trades; otherwise the header is the record keys in insertion order and the rows are all trades in order |
| Ledger.TradeBook.constructor | TradeReplay/tradebook.py:4-6 | the file path is kept and the trade list starts empty |
| Ledger.TradeBook.RegisterTrade | TradeReplay/tradebook.py:8-28 | exactly one record built from the arguments is appended; earlier records are unchanged |
| Ledger.TradeBook.Save | TradeReplay/tradebook.py:30-37 | the row-by-row write loop produces exactly `SavedFile(trades)` |
| Accounts.ValuePick | TradeReplay/portfolio.py:15-19 | summing the holdings in any order gives the same total: one picked entry plus the sum of the rest |
| Accounts.ValueFrame | TradeReplay/portfolio.py:15-19 | the sum over a set of symbols depends only on those symbols' positions |
| Accounts.InvestedUpdate | TradeReplay/portfolio.py:15-19 | replacing one position changes the invested amount by the new basis minus the old |
| Accounts.InvestedRemove | TradeReplay/portfolio.py:15-19 | deleting a position lowers the invested amount by its basis |
| Accounts.InvestedWithout | TradeReplay/portfolio.py:15-19 | the invested amount is the basis of one symbol plus the sum over all the others |
| Accounts.BoughtPosition | TradeReplay/portfolio.py:53-58 | the new quantity is held plus bought, and the new quantity times the average is the old basis plus the cost of the purchase (a weighted average) |
| Accounts.BuyStep | TradeReplay/portfolio.py:42-60 | a buy with quantity <= 0 or with insufficient cash leaves the account unchanged; otherwise cash drops by cost plus brokerage plus the DP charge and stays non-negative, the symbol is held, and its quantity grows by the bought quantity |
| Accounts.BuyKeepsWellFormed | TradeReplay/portfolio.py:53-60 | a buy keeps every held quantity positive |
| Accounts.BuyStepFrame | TradeReplay/portfolio.py:60 | a buy of one symbol leaves every other symbol's entry as it was |
| Accounts.BuyStepAdds | TradeReplay/portfolio.py:51-60 | an accepted buy pays the total and stores the weighted-average position |
| Accounts.AddedConservesValue | TradeReplay/portfolio.py:45-60 | paying the total and storing a position whose basis grew by the cost changes cash + invested only by the charges |
| Accounts.BuyConservesValue | TradeReplay/portfolio.py:42-60 | an accepted buy changes cash + invested only by the charges |
| Accounts.SoldQuantity | TradeReplay/portfolio.py:66-67 | the quantity sold is min(requested, held) |
| Accounts.SellStep | TradeReplay/portfolio.py:63-77 | a sell of an unheld symbol or of quantity <= 0 changes nothing; otherwise between 1 and the held quantity is sold, cash grows by proceeds minus charges, a sell of everything deletes the entry, and a partial sell keeps the average price |
| Accounts.SellKeepsWellFormed | TradeReplay/portfolio.py:74-77 | a sell keeps every remaining quantity positive, because a position sold down to zero is deleted |
| Accounts.SellStepFrame | TradeReplay/portfolio.py:74-77 | a sell of one symbol leaves every other symbol's entry as it was |
| Accounts.SellStepReduces | TradeReplay/portfolio.py:66-77 | an accepted sell credits the net proceeds and takes min(requested, held) out of the holdings |
| Accounts.Reduced | TradeReplay/portfolio.py:74-77 | the holdings update of `sell` (delete the entry when everything is sold, otherwise lower its quantity) has no contract of its own; its effect on the invested amount is stated by `ReducedInvested` and `ReducedConservesValue` |
| Accounts.ReducedInvested | TradeReplay/portfolio.py:74-77 | taking qty of a symbol out of the holdings lowers the invested amount by qty * avg_price |
| Accounts.ReducedConservesValue | TradeReplay/portfolio.py:68-77 | crediting the net proceeds and reducing the position changes cash + invested by the realised gain minus the charges |
| Accounts.SellConservesValue | TradeReplay/portfolio.py:63-77 | an accepted sell changes cash + invested by the realised gain (price - avg_price) * qty minus the charges |
| Accounts.Apply | TradeReplay/portfolio.py:42-79 | one order on a well-formed account keeps every held quantity positive |
| Accounts.Execute | TradeReplay/portfolio.py:42-79 | a sequence of orders keeps the holdings well formed |
| Accounts.QuantitiesAppend | TradeReplay/tradebook.py:19-28 | bought and sold totals per symbol add over concatenated ledgers |
| Accounts.CostAppend | TradeReplay/tradebook.py:19-28 | the cost bought of a symbol adds over concatenated ledgers |
| Accounts.CashFlowAppend | TradeReplay/tradebook.py:19-28 | the signed cash flow adds over concatenated ledgers |
| Accounts.LedgerSumsAppend | TradeReplay/tradebook.py:19-28 | all four ledger totals add over concatenation |
| Accounts.SingleTrade | TradeReplay/tradebook.py:19-28 | the ledger totals of a one-trade ledger are that trade's own contribution |
| Accounts.BuyLogTotals | TradeReplay/portfolio.py:42-61 | the trade a buy logs carries price * quantity of cost exactly when the buy is accepted, and no sell |
| Accounts.BuyLogOther | TradeReplay/portfolio.py:61 | a buy logs no quantity of any other symbol |
| Accounts.SellLogOther | TradeReplay/portfolio.py:79 | a sell logs no quantity of any other symbol |
| Accounts.BuyLog | TradeReplay/portfolio.py:21-35 | a buy logs at most one trade, and one exactly when it is accepted: that trade is a BUY of the requested symbol, date, price and quantity; the bookkeeping it implies is stated by `OrderBookkeeping` |
| Accounts.SellLog | TradeReplay/portfolio.py:21-35 | a sell logs at most one trade, and one exactly when it is accepted: that trade is a SELL of the symbol at the date and price, for the executed quantity min(requested, held); the bookkeeping it implies is stated by `OrderBookkeeping` |
| Accounts.OrderBookkeeping | TradeReplay/portfolio.py:42-79 | one order changes the held quantity and cash exactly as its logged trade says, logs at most one trade with the post-trade cash and invested amount, and changes nothing when it logs nothing |
| Accounts.NoOversell | TradeReplay/portfolio.py:63-77 | after any orders, held = initial + bought - sold according to the ledger, so the cumulative sells never exceed what was held plus bought |
| Accounts.CashMatchesLedger | TradeReplay/portfolio.py:42-79 | after any orders, cash = initial cash + the sum of the logged net amounts, with sells positive and buys negative; the last logged trade carries the final cash and invested amount; no logged trade means no change |
| Accounts.BuyStepBasis | TradeReplay/portfolio.py:53-60 | an accepted buy adds price * quantity to the symbol's basis; a rejected one adds nothing |
| Accounts.BuyBasis | TradeReplay/portfolio.py:53-61 | a buy adds to the basis exactly the cost it logs, and logs no sell |
| Accounts.OtherSymbolBasis | TradeReplay/portfolio.py:42-79 | an order of another symbol leaves the basis alone and logs no cost or sell of the symbol |
| Accounts.OrderBasis | TradeReplay/portfolio.py:53-60 | a buy-only order adds its logged cost to the symbol's basis |
| Accounts.CostBasisOfBuys | TradeReplay/portfolio.py:53-60 | with only buys of a symbol, its basis is the initial basis plus the logged cost and nothing is sold |
| Accounts.AveragePriceOfBuys | TradeReplay/portfolio.py:56 | starting flat and only buying, the average price is the total logged cost over the total logged quantity |
| Accounts.AverageFromBasis | TradeReplay/portfolio.py:56 | a positive quantity and a known basis fix the average price as basis / quantity |
| Accounts.Portfolio.constructor | TradeReplay/portfolio.py:2-13 | the initial cash, empty holdings, fees and the optional tradebook |
| Accounts.Portfolio.SumHoldings | TradeReplay/portfolio.py:81-85 | the accumulation loop yields the sum over all holdings of quantity times (latest price, or the average price when there is none) |
| Accounts.Portfolio.InvestedAmount | TradeReplay/portfolio.py:15-19 | the result is the sum of quantity * avg_price |
| Accounts.Portfolio.Log | TradeReplay/portfolio.py:21-35 | with a tradebook, exactly one trade is appended, with the current cash and invested amount; without one, nothing happens |
| Accounts.Portfolio.HasPosition | TradeReplay/portfolio.py:36-40 | true implies the symbol is held with quantity > 0; under the invariant, true exactly when the symbol has a holdings entry |
| Accounts.Portfolio.Buy | TradeReplay/portfolio.py:42-61 | the new account is `BuyStep` of the old one and the tradebook gains exactly `BuyLog`; the holdings invariant is kept |
| Accounts.Portfolio.Sell | TradeReplay/portfolio.py:63-79 | the new account is `SellStep` of the old one and the tradebook gains exactly `SellLog`; the holdings invariant is kept |
| Accounts.Portfolio.TotalValue | TradeReplay/portfolio.py:81-86 | cash plus the holdings at the latest prices, falling back to avg_price; with no prices it is cash plus the invested amount |
| MarketData.Column | Strategies/EMACrossoverShift.py:64-65 | a column lookup yields a value exactly when the column is named and is a price column or an extra column of the row; "open", "high", "low", "close" and "volume" read the row's own fields, any other name reads its extra columns |
| MarketData.DropUnnamed | TradeReplay/data_loader.py:6 | a column is kept exactly when it does not contain "Unnamed" |
| MarketData.RenameInstrument | TradeReplay/data_loader.py:7 | "instrumnet" becomes "instrument" position by position; other names are untouched |
| MarketData.CleanColumns | TradeReplay/data_loader.py:6-7 | the header cleanup (drop "Unnamed" columns, then rename "instrumnet") has no contract of its own; its effect is stated by `CleanColumnsSpec` |
| MarketData.CleanColumnsSpec | TradeReplay/data_loader.py:6-7 | after cleanup, no column contains "Unnamed", the misspelling is gone, a misspelt column becomes "instrument", and every other column survives |
| MarketData.CleanColumnsDrop | TradeReplay/data_loader.py:6-7 | no cleaned column contains "Unnamed" or is the misspelt "instrumnet" |
| MarketData.CleanColumnsKeep | TradeReplay/data_loader.py:6-7 | every column without "Unnamed" survives cleanup, the misspelt one as "instrument" |
| MarketData.InsertByDate | TradeReplay/data_loader.py:8 | inserting into date-sorted rows keeps them sorted and adds exactly that row to the multiset |
| MarketData.SortByDate | TradeReplay/data_loader.py:8 | the result is sorted by date and a permutation of the input |
| MarketData.SortSorted | TradeReplay/data_loader.py:8 | sorting rows already in date order leaves them unchanged |
| MarketData.DatesOf | TradeReplay/data_loader.py:9 | the date column, row by row |
| MarketData.Unique | TradeReplay/data_loader.py:9 | the same set of dates, with no repeats |
| MarketData.UniqueOfSorted | TradeReplay/data_loader.py:8-9 | the unique dates of a sorted column are strictly increasing |
| MarketData.IndexOf | TradeReplay/data_loader.py:17 | None exactly when absent; otherwise the first position holding the value |
| MarketData.IndexOfStrict | TradeReplay/data_loader.py:17 | in a strictly increasing list, the index of the i-th element is i |
| MarketData.RowsOn | TradeReplay/data_loader.py:11-13 | exactly the rows with that date |
| MarketData.RowsOnSingle | TradeReplay/data_loader.py:11-13 | the date mask keeps a single row exactly when it has the date |
| MarketData.RowsOnAppend | TradeReplay/data_loader.py:11-13 | the date mask distributes over concatenation, so the selected rows keep the table's order and its duplicates |
| MarketData.DropUnnamedExtra | TradeReplay/data_loader.py:6 | a row keeps exactly its extra columns whose names do not contain "Unnamed", with their values |
| MarketData.CleanRows | TradeReplay/data_loader.py:6 | every row, in order, loses its "Unnamed" columns and keeps everything else |
| MarketData.CleanRowsColumns | TradeReplay/data_loader.py:6 | after cleanup, reading an "Unnamed" column of a row gives nothing, and every other column reads as before |
| MarketData.DataLoader.constructor | TradeReplay/data_loader.py:4-9 | the columns are cleaned, the "Unnamed" columns are dropped from every row, the rows are sorted by date and are a permutation of the cleaned rows, and the dates are the unique dates of the sorted rows |
| MarketData.DataLoader.GetDataForDate | TradeReplay/data_loader.py:11-13 | exactly the rows of the table with that date, in table order (the `RowsOn` mask) |
| MarketData.DataLoader.GetNextDate | TradeReplay/data_loader.py:15-18 | ValueError exactly when the date is not a trading date; otherwise the least later trading date, or None when the date is the last |
| MarketData.DataLoader.GetPrevDate | TradeReplay/data_loader.py:20-23 | ValueError exactly when the date is not a trading date; otherwise the greatest earlier trading date, or None when the date is the first |
| MarketData.DataLoader.GetMinDate | TradeReplay/data_loader.py:25-26 | IndexError exactly when there are no dates; otherwise the least trading date |
| MarketData.DataLoader.GetMaxDate | TradeReplay/data_loader.py:28-29 | IndexError exactly when there are no dates; otherwise the greatest trading date |
| MarketData.DataLoader.PrevOfNext | TradeReplay/data_loader.py:15-23 | the previous date of the next date is the date itself |
| MarketData.DataLoader.NextOfPrev | TradeReplay/data_loader.py:15-23 | the next date of the previous date is the date itself |
| MarketData.DataLoader.TradingDateHasRows | TradeReplay/data_loader.py:9-13 | every trading date has at least one row |
| Indicators.Select | TradeReplay/indicators.py:17-22 | exactly the rows of the symbol dated on or before the date |
| Indicators.SelectAppend | TradeReplay/indicators.py:17-22 | filtering distributes over concatenation |
| Indicators.SelectSorted | TradeReplay/indicators.py:21 | filtering date-sorted rows keeps them sorted, so the re-sort is a no-op |
| Indicators.Closes | TradeReplay/indicators.py:24 | the close column, row by row |
| Indicators.TakeLast | TradeReplay/indicators.py:24 | `s[-w:]` is a suffix: min(w, len) long for w >= 1, and the whole series for w == 0 |
| Indicators.History | TradeReplay/indicators.py:17-24 | the history has at most as many closes as the symbol has rows up to the date: exactly `min(window, n)` for window >= 1 and all of them for window == 0; which closes they are is stated by `HistoryOfSorted` and `HistoryIgnoresIrrelevantRows` |
| Indicators.HistoryOfSorted | TradeReplay/indicators.py:17-24 | on a date-sorted table, the history is the last `window` closes of the filtered rows |
| Indicators.HistoryIgnoresIrrelevantRows | TradeReplay/indicators.py:17-24 | rows of other symbols or later dates do not change the history |
| Indicators.SelectIgnoresIrrelevantRows | TradeReplay/indicators.py:17-22 | rows of other symbols or later dates do not change the filtered rows |
| Indicators.SelectNone | TradeReplay/indicators.py:17-22 | with no relevant rows, the filter is empty |
| Indicators.Mean | TradeReplay/indicators.py:32 | the mean is undefined (NaN) exactly for an empty series |
| Indicators.SumBounds | TradeReplay/indicators.py:32 | a sum of n values within [lo, hi] lies within [n*lo, n*hi] |
| Indicators.MeanBounds | TradeReplay/indicators.py:32 | the mean of values within [lo, hi] lies within [lo, hi] |
| Indicators.Alpha | TradeReplay/indicators.py:42 | the smoothing factor 2/(span+1) lies in (0, 1] |
| Indicators.Ewm | TradeReplay/indicators.py:42 | the adjust=False exponential mean (seeded with the first value, then alpha times each new value plus 1 - alpha times the running mean) has no contract of its own; its bounds are stated by `EwmBounds` |
| Indicators.EwmBounds | TradeReplay/indicators.py:42 | the adjust=False exponential mean of values within [lo, hi] lies within [lo, hi] |
| Indicators.SmaValue | TradeReplay/indicators.py:26-34 | the SMA is undefined exactly when the history is empty |
| Indicators.EmaValue | TradeReplay/indicators.py:36-44 | a span < 1 raises ValueError; otherwise the EMA fails with IndexError exactly when the history is empty |
| Indicators.AveragesWithinRange | TradeReplay/indicators.py:26-44 | SMA and EMA lie between the least and greatest close of the history |
| Indicators.CustomValue | TradeReplay/indicators.py:49-53 | the custom branch of `__getattr__` applies the registered function to the history; it has no contract of its own, and its freedom from look-ahead is stated by `IndicatorsIgnoreIrrelevantRows` |
| Indicators.IndicatorsIgnoreIrrelevantRows | TradeReplay/indicators.py:17-53 | SMA, EMA and every custom indicator are unaffected by rows of other symbols or later dates, so there is no look-ahead |
| Indicators.Lower | TradeReplay/indicators.py:15 | ASCII lower-casing, character by character |
| Indicators.Upper | TradeReplay/indicators.py:54 | ASCII upper-casing, character by character |
| Indicators.LowerIdempotent | TradeReplay/indicators.py:15-49 | lower-casing twice equals lower-casing once, so a registered key stays reachable |
| Indicators.Resolve | TradeReplay/indicators.py:46-62 | own attributes (the engine's fields and methods and those every Python object has) first, then custom by the lower-cased name, then TA-Lib by the upper-cased name; AttributeError exactly when none applies |
| Indicators.RegisteredIsFound | TradeReplay/indicators.py:13-53 | after registering under any capitalisation, every capitalisation of the name resolves to that function |
| Indicators.IndicatorEngine.constructor | TradeReplay/indicators.py:2-11 | the loader, the custom map kept as given, and an empty cache; `Session` passes the empty map where the source passes `None` to mean no custom indicators |
| Indicators.IndicatorEngine.Register | TradeReplay/indicators.py:13-15 | stores the function under the lower-cased name; the cache is unchanged |
| Indicators.CacheStore | TradeReplay/indicators.py:26-44 | storing a freshly computed SMA, or a successfully computed EMA, keeps every cached value equal to a fresh computation |
| Indicators.IndicatorEngine.Sma | TradeReplay/indicators.py:26-34 | returns the SMA of the history; a cached key returns the cached value; the cache maps the key to the result afterwards |
| Indicators.IndicatorEngine.Ema | TradeReplay/indicators.py:36-44 | returns the EMA of the history; a cached key returns the cached value; only successful results are cached |
| Crossover.StopPrice | Strategies/EMACrossoverShift.py:83 | the stop price has no contract of its own; its position below the entry is stated by `StopBelowTargetAbove` |
| Crossover.TargetPrice | Strategies/EMACrossoverShift.py:84-85 | the target price has no contract of its own; its position above the entry is stated by `StopBelowTargetAbove` |
| Crossover.StopBelowTargetAbove | Strategies/EMACrossoverShift.py:82-85 | for a positive entry and 0 < pct < 1 and multiple > 0: 0 < stop < entry < target, and the target distance is the multiple of the stop distance |
| Crossover.FirstRowOf | Strategies/EMACrossoverShift.py:72-76 | None exactly when no row has the symbol; otherwise the first row of that symbol (`iloc[0]`): no earlier row has it |
| Crossover.EntrySignal | Strategies/EMACrossoverShift.py:68-78 | no signal exactly when yesterday has no rows, today's fast or slow column is missing, yesterday has no row of the symbol, or that row lacks either column; otherwise the signal holds today's fast and slow values and those of yesterday's first row of the symbol |
| Crossover.RowStep | Strategies/EMACrossoverShift.py:61-118 | a flat symbol enters only on a strict crossover, buying at the close with the derived stop and target; a tracked symbol with no holding is dropped; otherwise a high >= target sells everything at the target, else a low <= stop sells everything at the stop, else nothing changes |
| Crossover.Exit | Strategies/EMACrossoverShift.py:111-118 | closing a trade by a sell keeps every held quantity positive |
| Crossover.RowStepFrame | Strategies/EMACrossoverShift.py:61-118 | a row leaves every other symbol's open trade, holding and logged sells unchanged |
| Crossover.RowStepAppends | Strategies/EMACrossoverShift.py:61-118 | a row only appends to the trade log |
| Crossover.FlatRowNeverSells | Strategies/EMACrossoverShift.py:67-93 | a row of a flat symbol never reduces its holding |
| Crossover.DaySteps | Strategies/EMACrossoverShift.py:61 | the day's effect keeps the holdings well formed |
| Crossover.DayStepsAppends | Strategies/EMACrossoverShift.py:61-118 | a day only appends to the trade log |
| Crossover.DayStepsSnoc | Strategies/EMACrossoverShift.py:61 | the rows are processed in order, each on the state the earlier rows left |
| Crossover.OtherRowsFrame | Strategies/EMACrossoverShift.py:61-118 | a day with no row of a symbol leaves that symbol's trade and holding unchanged |
| Crossover.FlatSymbolNotExited | Strategies/EMACrossoverShift.py:67-118 | a symbol flat at the start of the day with at most one row that day is not sold that day |
| Crossover.EMACrossoverStrategy.constructor | Strategies/EMACrossoverShift.py:4-30 | the parameters, the indicator columns and no open trades |
| Crossover.PrevRows | Strategies/EMACrossoverShift.py:57-59 | rows exist exactly when today is a trading date with an earlier trading date; they are then the rows of the latest trading date before today |
| Crossover.EMACrossoverStrategy.Decide | Strategies/EMACrossoverShift.py:39-118 | the open trades, the account and the appended trades are exactly `DaySteps` over the day's rows, given yesterday's rows |
| Crossover.EMACrossoverStrategy.DecideRow | Strategies/EMACrossoverShift.py:61-118 | one row's effect on open trades, account and log is exactly `RowStep` |
| Replay.Window | TradeReplay/session.py:39-43 | exactly the trading dates within [start, end] |
| Replay.WindowSlice | TradeReplay/session.py:39-43 | in sorted dates, the window is one contiguous slice |
| Replay.SplitTail | TradeReplay/session.py:39-43 | dropping the first date of a split list moves both split points down by one |
| Replay.WindowHead | TradeReplay/session.py:39-43 | the window is the first date, when in range, followed by the window of the rest |
| Replay.WindowIsSlice | TradeReplay/session.py:39-43 | over strictly increasing dates, the window is the slice between the counts of dates below start and below end + 1 |
| Replay.CountBelow | TradeReplay/session.py:39-43 | the number of strictly increasing dates below a bound splits the list at the bound |
| Replay.NextAt | TradeReplay/session.py:43 | `get_next_date` of the k-th date is the (k+1)-th, or None for the last |
| Replay.SliceNext | TradeReplay/session.py:43 | inside a slice of the trading dates, each date's `get_next_date` is the following date of the slice |
| Replay.DateWalk | TradeReplay/session.py:39-43 | the window is strictly increasing and each of its dates is followed by its `get_next_date` |
| Replay.WalkAdvance | TradeReplay/session.py:41-43 | one step of the walk keeps the walk invariant, and raises only when the start is not a trading date |
| Replay.WalkFirst | TradeReplay/session.py:40-43 | the first step from the start raises exactly when the start is not a trading date; otherwise the walk has collected the start |
| Replay.WalkNext | TradeReplay/session.py:41-43 | a later step from a trading date within the end never raises and extends the collected dates by that date |
| Replay.WalkEnd | TradeReplay/session.py:41 | when the walk stops, the collected dates are exactly the window |
| Replay.RunDays | TradeReplay/session.py:46-49 | the whole run keeps the holdings well formed |
| Replay.RunDaysSnoc | TradeReplay/session.py:46-49 | the days are processed in order, each on the state the earlier days left |
| Replay.Session.constructor | TradeReplay/session.py:9-28 | a new tradebook at the default path, a portfolio with the investment, the brokerage and DP charge 15.93, and a new engine |
| Replay.Session.Open | TradeReplay/session.py:9-28 | a missing start or end defaults to the first or last trading date; IndexError exactly when a default is needed and there is no data |
| Replay.Session.CollectDates | TradeReplay/session.py:39-43 | ValueError exactly when the start is a non-trading date not past the end; otherwise exactly the trading dates in [start, end], in order |
| Replay.Session.DecideDay | TradeReplay/session.py:46-49 | `current` becomes the day, and the strategy's effect is `DaySteps` over that day's rows |
| Replay.Session.DecideAll | TradeReplay/session.py:46-49 | every listed day is decided in order; the final state is `RunDays` over them |
| Replay.Session.Run | TradeReplay/session.py:30-52 | on error nothing changes; otherwise the state is `RunDays` over the window, the tradebook gains its trades, and the saved file is `SavedFile` of all trades |
| Sharding.CeilDiv | TradeReplay/multi_session.py:41 | `math.ceil(n / k)` characterised for positive and negative divisors |
| Sharding.CeilDivPositive | TradeReplay/multi_session.py:41 | for a positive divisor, (a + b - 1) / b is the least q with a <= q * b |
| Sharding.CeilDivNegative | TradeReplay/multi_session.py:41 | for a negative divisor -m, -(a / m) is the least r with r * -m <= a |
| Sharding.CeilDivSign | TradeReplay/multi_session.py:41 | the sign of the chunk size, and when it is zero |
| Sharding.PySlice | TradeReplay/multi_session.py:43 | Python slice clamping for non-negative bounds |
| Sharding.MakeSymbolChunks | TradeReplay/multi_session.py:31-45 | ZeroDivisionError exactly for 0 processes; ValueError (a range step of 0) exactly for no symbols with positive processes, or fewer symbols than -n with negative n; an empty list exactly for negative n otherwise |
| Sharding.ChunksConcat | TradeReplay/multi_session.py:31-45 | for n > 0 and some symbols, the chunks concatenate back to the symbol list |
| Sharding.ConcatSlices | TradeReplay/multi_session.py:42-45 | slices of size k starting at 0, k, 2k, ... concatenate back to the list |
| Sharding.ConcatStep | TradeReplay/multi_session.py:42-45 | appending the slice that starts at j * k extends the covered prefix by that slice |
| Sharding.ChunksShape | TradeReplay/multi_session.py:31-45 | there are between 1 and n chunks, none is empty, and all but the last have size ceil(len / n) |
| Sharding.ChunkCount | TradeReplay/multi_session.py:41-44 | ceil(len / ceil(len / n)) <= n, so there are never more chunks than processes |

## Left out

- File I/O: reading the CSV (`pd.read_csv`, `parse_dates`) and writing the tradebook file. The loader takes the raw column names and rows as values, and `Save` returns the header and rows it would write.
- Floating point: prices, amounts and averages are exact `real`s, so rounding, NaN and infinities are not modelled. Dates are `int`s ordered like the timestamps, and `str(date)` in the log is the date itself.
- `tqdm` progress bars are not modelled.
- Process pools are not modelled. This covers `MultiSession.run_parallel` and `_run_one_chunk`, the latter of which refers to a `SessionChunk` that is not defined in the repository. Only `_make_symbol_chunks` is modelled.
- `analyze_trades.py`, `run.py`, `usage.py` and `TradeReplay/decision.py` are scripts and an unused stub, and are not part of this model.
- `Session.run` calls `strategy.register_indicators(engine)` and `engine.compute_all()`. `register_indicators` calls `engine.register_talib`. Neither `compute_all` nor `register_talib` exists on `IndicatorEngine`, so as written `run` raises AttributeError before any date is visited. The model leaves both calls out: the strategy is built with its fast and slow column names, and the rows carry those columns. Otherwise `run` would never reach the loop.
- `Crossover.EMACrossoverStrategy.Decide` takes the loader and the portfolio instead of the session, because Dafny modules cannot import each other cyclically. `today` is the session's `current`, which `Session.DecideDay` sets right before the call.
- The OHLC fields `close`, `high` and `low` are required typed fields of a row. The strategy's `is None` checks on them are therefore always false, and only the indicator columns can be missing. A None previous date and an empty previous-day frame are both modelled as no previous rows.
- In the exit branch, `if not pos` is never taken: an open-trade record is a non-empty dict. The model therefore has no such case.
- `Crossover.StopBelowTargetAbove` needs a positive close and 0 < stop_loss_pct < 1. The code accepts any values.
- `MarketData.SortByDate` is a stable insertion sort. `pandas.sort_values` defaults to quicksort, which need not keep the file order of rows with the same date. Only the order of dates is specified.
- `MarketData.Column`: "date" and "instrument" are not numeric, so they are read through the row's typed fields and not through `Column`.
- `MarketData.DataLoader.constructor`: the rename of "instrumnet" acts on the header (`CleanColumns`). The caller parses the instrument column, under either spelling, into the row's typed field.
- `Indicators.Resolve`: only the attributes the class defines and those every object has are own attributes. Attributes set on an instance at run time are not modelled.
- `Indicators.IndicatorEngine.constructor` takes the custom map itself, with no `None` case. `custom_indicators or {}` is modelled by the caller passing the empty map, as `Session` does.
- `Indicators.Lower` and `Indicators.Upper` change ASCII letters only. Python's `str.lower` and `str.upper` also change other Unicode letters.
- The TA-Lib branch of `__getattr__` is modelled only as name resolution (`Indicators.Resolve`). Calling the TA-Lib function is foreign code, and the library's presence is a parameter (`talib: Option<set<string>>`, the names it exports).
- Custom indicators are modelled as functions of the close history (`Indicators.CustomValue`). The extra `*args` and `**kwargs` that the returned lambda forwards are not modelled.
- `Indicators.IndicatorEngine.GetHistory` is a helper that states nothing of its own. Its properties are proved about `Indicators.History`.
- `Sharding.CeilDiv`: `math.ceil(len / n)` divides in floating point. The model divides exactly, which differs only for lengths beyond 2^53.
- `start_date or ...` in `Session.__init__` and `while d and ...` in `run` use Python truthiness. The model treats a missing date as `None` and any given date as present.
