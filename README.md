# Trading simulator core, modelled in Dafny

This project models the core of a browser stock-trading simulator:

- **The market engine** (`MarketEngine`). A class holding the stocks, the market state, the running market events and the news feed. One tick of `updatePrices` does three things:
  - it stamps the clock;
  - with probability 0.1% it generates a market event, with its news item;
  - it moves every stock by a random walk, nudged by the market sentiment and by the running events that list it.
- **The store** (`Storage`). The portfolio, the transaction log, the watchlist and the gamification statistics, which the simulator persists in the browser.
  - The trades, the portfolio valuation, the watchlist and the level-up rules are specification functions with their lemmas.
  - The store itself is a class whose methods are proved against those functions.
- **The helpers** (`Utils`): quantity and price validation, the order total, the colour and arrow by sign, the chart window, the stock sort, the achievement check, the sector colours, and the choice of suffix or unit in the number and time formatters.
- **The initial market** (`Catalog`, `Stocks`). The 53-stock catalog, the synthetic year of daily candles each stock starts with, and `initializeStocks`.
- **The order form** (`OrderForm`): the quantity text parsed with `parseInt(...) || 0`, the total and the largest affordable quantity it shows, the submit check and the "Max" button.

Conventions:

- Money and prices are exact `real`s.
- Share counts, volumes and timestamps (milliseconds) are `int`s.
- Every `Math.random()` draw is a parameter: a real in [0, 1), held in one record per purpose (`DayDraws`, `StockDraws`, `EventDraws`, `TickDraws`).
- The clock is a parameter too (`now`, or a `WallClock` with the local weekday and time).
- The shuffle that picks the stocks an event affects is any permutation of the stock indices.

Modules: `Wrappers` (Option), `Numeric` (Math.max/min/abs, guarded division), `Types` (the records of app/lib/types.ts), `Catalog`, `Stocks`, `MarketEngine`, `Storage`, `Utils`, `OrderForm`.

## Model

| member | source | states |
|---|---|---|
| MarketEngine.IsMarketOpen | app/lib/marketEngine.ts:33-47 | isMarketOpen: false on Sunday and Saturday, otherwise whether the minute of the day lies in [9·60+30, 16·60); its clock-face reading is MarketOpenOnClockFace |
| MarketEngine.MarketOpenOnClockFace | app/lib/marketEngine.ts:33-47 | the market is open exactly on weekdays 1-5, from 9:30 up to but not including 16:00 |
| MarketEngine.TickVolatility | app/lib/marketEngine.ts:65-69 | a tick's volatility is positive and never above the base volatility of the stock's class (30% of it while closed) |
| MarketEngine.SentimentImpact | app/lib/marketEngine.ts:121-128 | the sentiment nudge is positive exactly when bullish and negative exactly when bearish |
| MarketEngine.FinalPrice | app/lib/marketEngine.ts:82-83 | the price after the event impact is at least 0.01 |
| MarketEngine.KeepLast | app/lib/marketEngine.ts:104 | `slice(-1000)` keeps the last min(n, 1000) points, as a suffix |
| MarketEngine.ThrottledHistorySpec | app/lib/marketEngine.ts:85-105 | after a minute the history is the last min(n,1000) old points plus one point stamped now, opening at the old price, closing at the new one, with high the larger and low the smaller of the two prices, and volume in [500000, 1500000); length ≤ 1001; otherwise the history is unchanged |
| MarketEngine.NextStock | app/lib/marketEngine.ts:65-119 | the new price is ≥ 0.01, dayChange = price − previousClose, dayChangePercent·previousClose = 100·dayChange, and only price, day change, history and volume change |
| MarketEngine.NextStockMonotone | app/lib/marketEngine.ts:71-83 | a higher walk draw, a better sentiment or a larger event impact never gives a lower price |
| MarketEngine.WalkedPriceMonotone | app/lib/marketEngine.ts:71-79 | the walked price is ≥ 0.01 and grows with the draw and the sentiment |
| MarketEngine.PriceChangeMonotone | app/lib/marketEngine.ts:71-74 | the random walk's move (drift plus a change uniform in ±volatility, relative to the price) grows with the draw |
| MarketEngine.FinalPriceMonotone | app/lib/marketEngine.ts:82-83 | the final price grows with the walked price and the event impact |
| MarketEngine.NextStockVolume | app/lib/marketEngine.ts:117 | the volume never decreases and grows by less than 100000 per tick |
| MarketEngine.ActiveEvents | app/lib/marketEngine.ts:143-146 | pruning never lengthens the event list |
| MarketEngine.ActiveEventsMembers | app/lib/marketEngine.ts:143-146 | after pruning, the events are exactly the old events that are still running |
| MarketEngine.ActiveEventsConcat | app/lib/marketEngine.ts:143-146 | pruning keeps the order of the events: it distributes over concatenation |
| MarketEngine.ActiveEventsIdempotent | app/lib/marketEngine.ts:143-146 | pruning twice at the same time prunes nothing more |
| MarketEngine.EventImpact | app/lib/marketEngine.ts:134-141 | the forEach sum: priceImpact/100 over the events, in order, that are still running at now (now < timestamp + duration·60000) and list the symbol; its properties are the EventImpact lemmas below |
| MarketEngine.EventImpactOfActive | app/lib/marketEngine.ts:130-149 | pruning leaves every stock's event impact unchanged, so the pruning done while the first stock is priced does not change the others' impacts |
| MarketEngine.EventImpactUnaffected | app/lib/marketEngine.ts:134-141 | a stock that no running event lists has zero event impact |
| MarketEngine.EventImpactAppend | app/lib/marketEngine.ts:134-141 | a new event adds priceImpact/100 to each stock it lists while it runs, and nothing to the others |
| MarketEngine.AffectedCount | app/lib/marketEngine.ts:155 | an event affects between 1 and 5 stocks |
| MarketEngine.Template | app/lib/marketEngine.ts:158-195 | the template table: title, description, impact draw·scale + offset (negated for crash and regulation) and duration for each of the six event types; its ranges are TemplateImpact |
| MarketEngine.TemplateImpact | app/lib/marketEngine.ts:158-195 | crashes and regulation push prices down and every other type pushes them up, by 1% to under 15% (crashes at least 5%); every event runs 120 to 240 minutes |
| MarketEngine.RandomStocks | app/lib/marketEngine.ts:230-233 | the pick has min(count, number of stocks) elements, each one of the stocks |
| MarketEngine.Symbols | app/lib/marketEngine.ts:156 | the symbols of the picked stocks, in order |
| MarketEngine.NewEvent | app/lib/marketEngine.ts:151-207 | the event generateMarketEvent builds: the drawn type, floor(draw·5)+1 symbols from a shuffle of the stocks, the template's fields and the timestamp now; its properties are NewEventSound |
| MarketEngine.NewEventSound | app/lib/marketEngine.ts:151-213 | a new event lists min(count, number of stocks) listed symbols, none twice when the listed symbols are distinct, is stamped now and running, and is negative exactly for crash and regulation |
| MarketEngine.NewsOf | app/lib/marketEngine.ts:215-225 | the news item carries the event's title, description, timestamp and symbols |
| MarketEngine.NewsOfClassification | app/lib/marketEngine.ts:222-223 | the news is positive exactly when priceImpact > 0 and negative otherwise (never neutral); severity is high above 5%, medium above 2%, low otherwise |
| MarketEngine.SeverityMonotone | app/lib/marketEngine.ts:223 | a larger impact is never reported as less severe |
| MarketEngine.CrashNews | app/lib/marketEngine.ts:171-176 | a crash is bad news of high severity, except for a draw of exactly 0 (−5%, medium) |
| MarketEngine.PrependNews | app/lib/marketEngine.ts:227-228 | the new item comes first, followed by the previous items, keeping at most 50 |
| MarketEngine.TickStocks | app/lib/marketEngine.ts:61 | a tick maps every stock, so there are as many stocks after it as before |
| MarketEngine.TickStocksKeepListing | app/lib/marketEngine.ts:61-62 | a tick keeps the order of the stocks, their symbols, previous closes and volatilities, every price is ≥ 0.01, and distinct symbols stay distinct |
| MarketEngine.TickStocksBoundHistories | app/lib/marketEngine.ts:85-105 | a tick keeps every stock's history non-empty and at most 1001 points long, the invariant the engine keeps |
| MarketEngine.InitialStocksBounded | app/lib/stocks.ts:117-130 | the stocks initializeStocks lists, with a year of points each, meet the history bound the engine starts from |
| MarketEngine.TickStep | app/lib/marketEngine.ts:61 | each step of the map gives the stock the same impact whether or not the first step has already pruned the events |
| MarketEngine.MarketEngine.constructor | app/lib/marketEngine.ts:11-31 | the engine starts with the given stocks, no events or news, probability 0.001, a neutral sentiment, and the clock's open flag and 9:30/16:00 instants; the invariant holds: every history has 1 to 1001 points and the feed at most 50 items |
| MarketEngine.MarketEngine.UpdatePrices | app/lib/marketEngine.ts:50-63 | stamps currentTime and lastUpdateTime with one now and recomputes isOpen; the stocks become the tick of the old stocks against the old events plus the new event, if one was generated; the events become the running ones; the news gains the event's item; the invariant (histories of 1 to 1001 points, at most 50 news items) is kept |
| MarketEngine.MarketEngine.UpdateEachStock | app/lib/marketEngine.ts:61 | the loop over the stocks computes the tick of every stock, each against the events, and leaves only the running events |
| MarketEngine.MarketEngine.UpdateStockPrice | app/lib/marketEngine.ts:65-119 | the stock's next state is NextStock against the current events, which it prunes |
| MarketEngine.MarketEngine.GetEventImpact | app/lib/marketEngine.ts:130-149 | the loop sums priceImpact/100 over the running events listing the symbol; afterwards the events are the running ones, in order |
| MarketEngine.MarketEngine.GenerateMarketEvent | app/lib/marketEngine.ts:151-213 | the new event is appended to the events and its news item prepended to the feed |
| MarketEngine.MarketEngine.GenerateNews | app/lib/marketEngine.ts:215-228 | the feed becomes the event's item followed by the previous items, at most 50 |
| MarketEngine.MarketEngine.SetMarketSentiment | app/lib/marketEngine.ts:251-253 | only the sentiment changes |
| MarketEngine.EngineSlot.constructor | app/lib/marketEngine.ts:257 | no engine exists at first |
| MarketEngine.EngineSlot.GetMarketEngine | app/lib/marketEngine.ts:259-264 | the first call with stocks creates the engine, with the constructor's whole initial state (stocks, no events or news, probability 0.001, the clock's market state with a neutral sentiment), and every later call returns that same engine; a call without stocks before then returns null |
| MarketEngine.EngineSlot.ResetMarketEngine | app/lib/marketEngine.ts:266-268 | the engine is forgotten |
| Catalog.CatalogWellFormed | app/lib/stocks.ts:4-73 | the catalog has 53 stocks, positive prices and previous closes, and no symbol twice |
| Stocks.DailyVolatility | app/lib/stocks.ts:82-83 | the daily volatility is positive and at most 4% |
| Stocks.DayPoint | app/lib/stocks.ts:90-108 | a day's candle trades at its close and carries its timestamp |
| Stocks.DayFactors | app/lib/stocks.ts:93-98 | draws in [0,1) give positive open and close factors, a high factor ≥ 1, a low factor in (0,1], and a volume in [10000000, 60000000) |
| Stocks.CandleShape | app/lib/stocks.ts:93-97 | such factors on a positive price give a candle with positive prices and low ≤ min(open, close) ≤ max(open, close) ≤ high |
| Stocks.DayPointWellFormed | app/lib/stocks.ts:93-108 | a day built from valid draws on a positive close is a well-formed candle |
| Stocks.Walk | app/lib/stocks.ts:85-111 | the walk has one candle per day |
| Stocks.WalkTimestamps | app/lib/stocks.ts:86-90 | candle k is stamped now − (days − k)·86400000, so the stamps rise a day apart and the last is now |
| Stocks.WalkContinuity | app/lib/stocks.ts:93-110 | the first candle opens from 80% of the price and each later one from the previous close |
| Stocks.WalkWellFormed | app/lib/stocks.ts:93-108 | from a positive start every candle of the walk is well formed |
| Stocks.GenerateInitialPriceHistory | app/lib/stocks.ts:76-114 | the counting loop produces exactly the walk: days + 1 candles from 80% of the current price |
| Stocks.WalkAdvance | app/lib/stocks.ts:82-111 | one turn of the loop appends the day's candle and continues the walk from its close, leaving the whole walk unchanged |
| Stocks.ListCatalog | app/lib/stocks.ts:117-129 | one stock per catalog row, in order, with its symbol, prices and volatility, 366 history points and dayChange = price − previousClose |
| Stocks.ListedStockSound | app/lib/stocks.ts:117-129 | a stock listed from a row with positive prices has a positive price, dayChangePercent·previousClose = 100·dayChange and a well-formed history ending now |
| Stocks.ListCatalogSound | app/lib/stocks.ts:117-129 | listing a catalog with positive prices and distinct symbols gives distinct symbols and sound stocks |
| Stocks.InitializeStocks | app/lib/stocks.ts:117-130 | initializeStocks: the catalog listed with a generated year of history each (ListCatalog), whose soundness is InitializeStocksSound |
| Stocks.InitializeStocksSound | app/lib/stocks.ts:117-130 | the initial market has 53 sound stocks with distinct symbols |
| Storage.FindHolding | app/lib/storage.ts:124 | `find` gives nothing exactly when no holding has the symbol, and otherwise a holding with that symbol |
| Storage.FindHoldingAt | app/lib/storage.ts:124 | with unique symbols, the holding found is the one at its index |
| Storage.Buy | app/lib/storage.ts:113-164 | a buy is refused exactly when cash < value + 0.1% fee; an accepted one lowers cash by exactly that and changes nothing else but the holdings |
| Storage.Sell | app/lib/storage.ts:185-223 | a sale is refused exactly when no holding has the symbol or it holds fewer shares; an accepted one raises cash by value − fee and changes nothing else but the holdings |
| Storage.TradeRecord | app/lib/storage.ts:168-179 | a logged trade's value excludes the fee and its fee is 0.1% of the value |
| Storage.BuyOpensHolding | app/lib/storage.ts:143-157 | a first buy appends one holding of the shares at the price, and the portfolio stays valid |
| Storage.AddSharesSound | app/lib/storage.ts:127-142 | buying more adds the shares and their cost; the new average cost times the new quantity is the old cost plus the new one (a weighted average) |
| Storage.BuyAddsToHolding | app/lib/storage.ts:127-142 | a buy of a held symbol replaces its holding in place by the merged one, keeping the portfolio valid and its length |
| Storage.BuyLeavesOthers | app/lib/storage.ts:132-156 | a buy leaves every other symbol's holding as it was |
| Storage.RemoveSymbol | app/lib/storage.ts:201 | the filter keeps only holdings of other symbols |
| Storage.RemoveSharesSound | app/lib/storage.ts:202-215 | selling part of a holding removes the shares and averageCost·quantity of cost, with averageCost unchanged |
| Storage.RemoveSymbolUnique | app/lib/storage.ts:201 | the filter keeps the symbols unique |
| Storage.RemoveSymbolFind | app/lib/storage.ts:201 | the filter does not change the holding found for any other symbol |
| Storage.RemoveSymbolAbsent | app/lib/storage.ts:201 | filtering out a symbol that is not held changes nothing |
| Storage.RemoveSymbolCount | app/lib/storage.ts:200-201 | with unique symbols, filtering out a held symbol drops exactly one holding |
| Storage.RemoveSymbolAppend | app/lib/storage.ts:201 | the filter keeps order: it distributes over concatenation |
| Storage.SellClosesHolding | app/lib/storage.ts:200-201 | selling a whole position removes its holding, leaving one holding fewer and a valid portfolio |
| Storage.SellReducesHolding | app/lib/storage.ts:202-215 | selling part of a position reduces its holding in place and keeps the portfolio valid |
| Storage.SellLeavesOthers | app/lib/storage.ts:200-215 | a sale leaves every other symbol's holding as it was |
| Storage.BuyThenSellRoundTrip | app/lib/storage.ts:113-242 | buying shares of a symbol not held and selling them all at the same price restores the portfolio, less two fees |
| Storage.WeightedAverageExample | app/lib/storage.ts:128-130 | 10 shares at 100 plus 10 at 120 average 110 |
| Storage.FindStock | app/lib/storage.ts:62 | `find` over the stocks gives nothing exactly when no stock has the symbol |
| Storage.RevalueAll | app/lib/storage.ts:61-84 | the valuation keeps one holding per holding |
| Storage.RevalueListed | app/lib/storage.ts:62-83 | a listed holding is marked to its stock: value = quantity·price, gainLoss = value − quantity·averageCost, dayChange = (price − previousClose)·quantity |
| Storage.Valuation | app/lib/storage.ts:57-107 | cash, initialValue, holding order, count, symbols, quantities and stored costs are kept; unlisted holdings are returned as they were; totalValue = cash + Σ values; allTimeReturn = totalValue − initialValue; dayChangePercent is 0 when the previous total is ≤ 0 |
| Storage.ValueGainedIsDayChange | app/lib/storage.ts:86-96 | the value minus the reconstructed previous value is the sum of the holdings' day changes |
| Storage.RevalueAllListed | app/lib/storage.ts:61-84 | revalued listed holdings are each worth their shares at their current price |
| Storage.RevalueIdempotent | app/lib/storage.ts:61-84 | marking a holding to the same prices twice is the same as marking it once |
| Storage.DayChangeOfListedHoldings | app/lib/storage.ts:61-97 | when every held stock is listed, the portfolio's day change is the sum of its holdings' day changes |
| Storage.ValuationKeepsValid | app/lib/storage.ts:57-107 | valuation keeps one holding per symbol, each of positive quantity with cost = quantity·averageCost |
| Storage.ValuationIdempotent | app/lib/storage.ts:57-107 | valuing twice at the same prices is valuing once |
| Storage.DefaultPortfolio | app/lib/storage.ts:44-55 | the default portfolio: 100000 cash, no holdings, total and initial value 100000, every change 0; DefaultPortfolioValued shows valuation leaves it as it is |
| Storage.DefaultPortfolioValued | app/lib/storage.ts:44-55 | the starting portfolio is already valued |
| Storage.XpGain | app/lib/storage.ts:380 | a trade earns at least 10 XP: the larger of 10 and a tenth of the profit or loss, floored |
| Storage.Record | app/lib/storage.ts:364-381 | one more trade; a profit adds to the profitable count, the profit sum and the streak, anything else adds its size to the losses and ends the streak; the best streak is the larger of the old best and the new streak after a profit and unchanged otherwise; the best (worst) trade is the larger (smaller) of the old one and this profit; win rate · trades = profitable trades · 100; the XP grows by XpGain; level, threshold and achievements are untouched |
| Storage.NextThreshold | app/lib/storage.ts:387 | the threshold never shrinks |
| Storage.LevelUp | app/lib/storage.ts:384-388 | the loop ends with xp below the threshold; the level rises exactly when the xp had reached the threshold; nothing but xp, level and threshold changes |
| Storage.UpdateStatsValid | app/lib/storage.ts:361-391 | updateUserStats keeps the statistics valid (0 ≤ currentStreak ≤ bestStreak, profitable ≤ total), adds one trade, never lowers the level, and raises the streak exactly on a profit |
| Storage.LevelUpWhenThresholdReached | app/lib/storage.ts:380-388 | a trade earns a level exactly when xp + gain reaches the threshold |
| Storage.DefaultUserStats | app/lib/storage.ts:342-359 | the default statistics: level 1, 0 XP towards 1000, every count and sum 0, no achievements; DefaultUserStatsValid shows they are valid |
| Storage.DefaultUserStatsValid | app/lib/storage.ts:342-359 | the starting statistics are valid |
| Storage.Watch | app/lib/storage.ts:265-280 | after adding, the symbol is watched; a watched symbol leaves the list as it is, otherwise one item stamped now is appended |
| Storage.Unwatch | app/lib/storage.ts:282-286 | removal keeps only items of other symbols, from the list |
| Storage.UnwatchMembers | app/lib/storage.ts:284 | an item is kept exactly when it was in the list with another symbol |
| Storage.WatchIdempotent | app/lib/storage.ts:269-271 | adding twice is adding once |
| Storage.WatchKeepsUnique | app/lib/storage.ts:265-280 | adding never creates a second item for a symbol |
| Storage.UnwatchAppend | app/lib/storage.ts:284 | removal keeps the order of the rest |
| Storage.UnwatchAbsent | app/lib/storage.ts:284 | removing a symbol not watched changes nothing |
| Storage.WatchThenUnwatch | app/lib/storage.ts:265-286 | adding a new symbol and removing it again restores the list |
| Storage.UnwatchKeepsUnique | app/lib/storage.ts:284 | removal never creates a second item for a symbol |
| Storage.Store.constructor | app/lib/storage.ts:24-37 | an empty store reads as the default portfolio, no transactions, an empty watchlist and the default statistics |
| Storage.Store.UpdatePortfolio | app/lib/storage.ts:57-111 | the stored portfolio becomes its valuation at the given stocks and is returned |
| Storage.Store.AddTransaction | app/lib/storage.ts:251-256 | the trade goes first in the log |
| Storage.Store.ExecuteBuy | app/lib/storage.ts:113-183 | returns true exactly when Buy accepts; then the portfolio is Buy's result and exactly one buy record is prepended; a refused buy changes nothing |
| Storage.Store.ExecuteSell | app/lib/storage.ts:185-242 | returns true exactly when Sell accepts; then the portfolio is Sell's result and exactly one sell record is prepended; a refused sale changes nothing |
| Storage.Store.AddToWatchlist | app/lib/storage.ts:265-280 | the watchlist becomes Watch of the old one |
| Storage.Store.RemoveFromWatchlist | app/lib/storage.ts:282-286 | the watchlist becomes Unwatch of the old one |
| Storage.Store.UpdateUserStats | app/lib/storage.ts:361-391 | the statistics become LevelUp(Record(old, profit)), computed by the imperative update and the while loop |
| Storage.Store.ResetAllData | app/lib/storage.ts:394-402 | every record is back to its default |
| Utils.IsValidQuantity | app/lib/utils.ts:151-153 | isValidQuantity: positive and a whole number, characterised by ValidQuantityIsCount and CountIsValidQuantity |
| Utils.IsValidPrice | app/lib/utils.ts:155-157 | isValidPrice: a positive price; a real is never NaN, so the NaN test has no counterpart |
| Utils.OrderTotal | app/lib/utils.ts:159-162 | calculateOrderTotal: quantity·price, times 1.001 when fees are on; OrderTotalWithFee relates the two |
| Utils.ValidQuantityIsCount | app/lib/utils.ts:151-153 | a valid quantity is a whole number ≥ 1 |
| Utils.CountIsValidQuantity | app/lib/utils.ts:151-153 | a whole number is a valid quantity exactly when it is ≥ 1 |
| Utils.OrderTotalWithFee | app/lib/utils.ts:159-162 | without fees the total is quantity·price, with fees that plus 0.1% of it, and a valid order costs more than zero |
| Utils.Sign | app/lib/utils.ts:99-115 | the sign is 1, −1 or 0 exactly for positive, negative or zero values |
| Utils.ChangeColor | app/lib/utils.ts:99-103 | getChangeColor: green class for a positive value, red for a negative one, gray for zero |
| Utils.ChangeBgColor | app/lib/utils.ts:105-109 | getChangeBgColor: the same three-way choice of background class |
| Utils.ChangeArrow | app/lib/utils.ts:111-115 | getChangeArrow: ↑, ↓ or → by the sign |
| Utils.SignDecidesStyle | app/lib/utils.ts:99-115 | each of the colour, background and arrow gives the same output for two values exactly when they have the same sign |
| Utils.Since | app/lib/utils.ts:147 | the filter keeps only points of the history stamped at or after the start |
| Utils.SinceMembers | app/lib/utils.ts:147 | a point is kept exactly when it is in the history and in the window |
| Utils.SinceAppend | app/lib/utils.ts:147 | the filter keeps order: it distributes over concatenation |
| Utils.SinceIsSuffix | app/lib/utils.ts:147 | of a history in time order, a window is its most recent points |
| Utils.SinceFromOldest | app/lib/utils.ts:147 | when the oldest point of an ordered history is in the window, the window is the whole history |
| Utils.SinceAll | app/lib/utils.ts:147 | a window covering every point is the whole history |
| Utils.ChartData | app/lib/utils.ts:118-148 | getChartDataForTimeframe: the whole history for 'ALL', otherwise the points at or after now minus the window (1, 7, 30, 90 or 365 days, 1 day for an unknown timeframe) |
| Utils.ChartDataWindows | app/lib/utils.ts:118-148 | 'ALL' returns the history unchanged; an unknown timeframe shows what '1D' shows; any other shows exactly the points not older than its window |
| Utils.TextLessTrichotomy | app/lib/utils.ts:216-217 | the text order is total and asymmetric |
| Utils.TextLessTransitive | app/lib/utils.ts:216-217 | the text order is transitive |
| Utils.NotPrecedesTransitive | app/lib/utils.ts:182-221 | the comparator is a total preorder: not going before is transitive |
| Utils.PrecedesAsymmetric | app/lib/utils.ts:214-220 | no two stocks each go before the other |
| Utils.InsertPermutes | app/lib/utils.ts:182-221 | an insertion step adds exactly the inserted stock |
| Utils.InsertOrdered | app/lib/utils.ts:182-221 | an insertion step keeps an ordered list ordered |
| Utils.SortCorrect | app/lib/utils.ts:182-221 | the sort is a permutation of its input, ordered by the comparator |
| Utils.SortUnkeyedIsIdentity | app/lib/utils.ts:210-211 | with an unknown key the stable sort leaves the order as given |
| Utils.SortStocks | app/lib/utils.ts:181-224 | the result is a permutation of the stocks, ordered by the key in the direction asked, and the input order for an unknown key |
| Utils.NewlyEarned | app/lib/utils.ts:227-250 | the result is drawn from the achievement table |
| Utils.NewlyEarnedMembers | app/lib/utils.ts:227-250 | an id is returned exactly when it is in the table, its threshold holds and it is not already earned |
| Utils.NewlyEarnedDistinct | app/lib/utils.ts:227-250 | no id is returned twice from a table without repeats |
| Utils.CheckAchievements | app/lib/utils.ts:227-250 | checkAchievements: the six achievement checks in order, as NewlyEarned over the achievement table; CheckAchievementsSound states each check |
| Utils.CheckAchievementsSound | app/lib/utils.ts:227-250 | checkAchievements returns each of the six achievements at most once, exactly when its threshold holds and it is not already earned |
| Utils.SectorColor | app/lib/utils.ts:176-178 | a listed sector gets its colour, any other the fallback grey |
| Utils.FallbackOnlyForUnknownSectors | app/lib/utils.ts:165-178 | the grey is shown exactly for sectors not in the table |
| Utils.LargeNumberMagnitude | app/lib/utils.ts:23-37 | formatLargeNumber uses the suffix of the largest of T/B/M/K not above the value |
| Utils.VolumeMagnitude | app/lib/utils.ts:39-50 | formatVolume uses the suffix of the largest of B/M/K not above the value |
| Utils.MantissaInRange | app/lib/utils.ts:23-50 | the number printed before a suffix is at least 1, and below 1000 except under the largest unit |
| Utils.PercentPrefix | app/lib/utils.ts:19-21 | formatPercent writes '+' exactly for values ≥ 0 |
| Utils.RelativeTime | app/lib/utils.ts:77-96 | formatRelativeTime: the count and unit shown (days, hours, minutes, else seconds) from the nested floored divisions of the elapsed milliseconds |
| Utils.RelativeTimeUnit | app/lib/utils.ts:77-96 | the count is the elapsed time floored to the unit, and the unit is the largest that gives a non-zero count |
| OrderForm.DecimalStringValue | app/components/OrderForm.tsx:50-52 | reading back the digits `toString` writes gives the number |
| OrderForm.ParseNumberString | app/components/OrderForm.tsx:19 | `parseInt(n.toString()) \|\| 0` is n |
| OrderForm.ParseTrailingTextExample | app/components/OrderForm.tsx:19 | "12abc" is read as 12 |
| OrderForm.ParseNoDigitsExample | app/components/OrderForm.tsx:19 | text without digits is read as 0 |
| OrderForm.ParseSignedExample | app/components/OrderForm.tsx:19 | " -3" is read as −3 |
| OrderForm.ParseHexQuantityExample | app/components/OrderForm.tsx:19 | "0x1F" is read as 31 |
| OrderForm.ParseQuantity | app/components/OrderForm.tsx:19 | `parseInt(quantity) \|\| 0`: skips leading white space, takes an optional sign, then a 0x hexadecimal or decimal digit run, 0 when there are no digits; its behaviour is fixed by ParseNumberString and the example lemmas |
| OrderForm.FormTotal | app/components/OrderForm.tsx:20 | the order total shown: calculateOrderTotal with fees on the parsed quantity; PreviewAddsUp relates it to the trade's value and fee |
| OrderForm.MaxBuyQuantity | app/components/OrderForm.tsx:21 | floor(cash / (price·1.001)); MaxBuyQuantityIsLargest shows it is the largest affordable quantity |
| OrderForm.MaxBuyQuantityIsLargest | app/components/OrderForm.tsx:20-21 | for a positive price, maxBuyQuantity is the largest quantity whose total with the fee fits in the cash |
| OrderForm.PreviewAddsUp | app/components/OrderForm.tsx:117-127 | the preview's subtotal plus its fee is the total shown, and the trade value plus fee executeBuy charges |
| OrderForm.HandleSubmit | app/components/OrderForm.tsx:23-46 | a submit either sets an error and executes nothing, keeping the text, or executes (action, parsed quantity) once, with no error, and resets the text to "1" |
| OrderForm.SubmitOutcomes | app/components/OrderForm.tsx:27-42 | the three error messages are set exactly for a quantity ≤ 0, a buy whose total exceeds the cash, and a sale of more shares than owned |
| OrderForm.FormBuyAgreesWithPortfolio | app/components/OrderForm.tsx:32-36 | the form accepts a buy exactly when executeBuy's funds check does |
| OrderForm.FormSellAgreesWithPortfolio | app/components/OrderForm.tsx:37-42 | with the shares owned read from the portfolio, the form accepts a sale exactly when executeSell does |
| OrderForm.SetMaxQuantity | app/components/OrderForm.tsx:48-54 | the quantity text reads back as the largest affordable quantity for a buy and the shares owned for a sale |
| OrderForm.MaxThenSubmitExecutes | app/components/OrderForm.tsx:21-54 | pressing "Max" and submitting executes every affordable share (buy) or every owned share (sale) whenever that is at least one |

## Left out

- Persistence. localStorage, JSON encoding and the `typeof window` guards are left out. The four stored records are fields of `Storage.Store`. The user preferences, the challenges list and the stocks cache are not modelled.
- The React components, the interval timer that drives the ticks, and the page components are left out. The order form's state is a `Form` value. `onExecute` is the `Order` a submit returns.
- Randomness. Each `Math.random()` call is a draw passed in, one record per purpose. The draws are not interleaved in the source's order. `getRandomStocks` sorts with a random comparator; the model takes that as any permutation, not its actual distribution.
- Time. `Date.now()` is a parameter. A tick reads it once, while the source reads it separately in `updatePrices`, in each `updateStockPrice` and in each `getEventImpact`. The local calendar fields come with the clock reading (`WallClock`). Likewise `initializeStocks` reads the clock once per stock, inside `generateInitialPriceHistory`, while `Stocks.ListCatalog` stamps all 53 histories with one `now`.
- Floating point is left out. Prices are exact reals, so identities such as value·1.001 = value + fee hold exactly. IEEE rounding, NaN and Infinity are not modelled. `Utils.IsValidPrice` therefore has no NaN case.
- Division by zero yields 0 (`Numeric.Quotient`); JavaScript yields Infinity or NaN. The model reaches it only for degenerate data: a zero previous close (the day change percent of a stock or a holding), a zero total cost (a holding's gain/loss percent), a zero initial value (the all-time return percent), a holding of zero shares (its previous value in `Storage.PreviousHoldingsValue`, and the average cost after a buy that leaves zero shares), zero trades in total (the win rate), and a zero price in `OrderForm.MaxBuyQuantity`. At a zero price the source's maximum is Infinity (NaN with no cash), and "Max" would write the text "Infinity", which reads back as 0; the model gives 0 directly.
- The ids of transactions, events and news items are not modelled.
- `updateUserStats` ignores its transaction argument, so the model drops it.
- The achievements of `UserStats` are their ids (`seq<string>`), while the record type declares a list of achievement records. `checkAchievements` takes its statistics untyped and only tests ids for membership, so the model keeps the ids; the achievement records' titles, descriptions and unlock times are not modelled.
- Number formatting is left out: `toFixed`, `Intl.NumberFormat`, `toLocaleString` and date formatting. Only the choice of suffix, unit and sign is modelled.
- Utils.SectorColor: a sector that names an inherited object member, such as "constructor" or "toString", gets that member in the source (`SECTOR_COLORS[sector] || ...` looks it up on the prototype); the model gives the grey fallback. No catalog sector is such a name.
- `localeCompare` is modelled as code-point lexicographic order, a total order on strings. Locale collation is not modelled.
- JavaScript's sort is stable (ES2019), so `sortStocks` is modelled as a stable insertion sort. The model does not capture that the comparator of a numeric key, `aVal - bVal`, is inconsistent when a value is NaN.
- `parseInt` is modelled for decimal and `0x` hexadecimal digits after optional white space and a sign. It reads a digit run of any length exactly, and the precision loss of very long digit strings is not modelled. `OrderForm.ParseNumberString` (the text "Max" writes reads back as the number) holds in JavaScript only below 10^21: from there on `toString` writes exponent form, such as "1e+21", which `parseInt` reads as 1.
- `getStocks`, `getMarketState`, `getNews` and `getEvents` return fields unchanged and are not separate members.
- MarketEngine.MarketEngine.UpdatePrices: requires the engine invariant, under which every stock has a price history of 1 to 1001 points. The source reads the last history point and would throw on an empty history. The constructor and `MarketEngine.EngineSlot.GetMarketEngine` require the same of the stocks they are given; the stocks of initializeStocks have 366 points each (`MarketEngine.InitialStocksBounded`), and a tick keeps the bound. A longer history, which the source would accept and trim at the first tick, is not modelled.
- MarketEngine.MarketEngine.GenerateMarketEvent: the six template impacts, of which the source draws all six and uses one, are one draw applied to the chosen template.
- MarketEngine.NewsOf: the `neutral` impact tag exists in the record type but is never produced. The model keeps the constructor and proves it is never chosen.
- Storage.LevelUp: requires `xpToNextLevel ≥ 1`. With a threshold of 0 or less the source's while loop never ends. Every reachable statistics record has a threshold of at least 1000, and the store keeps `ValidStats`.
- Storage.Store.ExecuteBuy: requires `quantity > 0`, which the order form guarantees before calling. The source also accepts other quantities.
- Storage.Store.ExecuteSell: requires `quantity > 0`, for the same reason.
- Storage.Valuation: `allTimeReturnPercent`, `gainLossPercent` and the holdings' `dayChangePercent` are computed but no property is stated about them beyond the guarded division.
