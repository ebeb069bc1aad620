# CryptoTycoon simulation core, modelled in Dafny

CryptoTycoon is a browser game for paper trading crypto-currencies. This project models its
bookkeeping and message routing, and proves properties of that model:

- **The portfolio ledger** (`portfolio.dfy`, module `PortfolioContext`). It holds a cash
  balance that starts at 10000, an ordered list of holdings with their average buy price, a
  newest-first trade log and a table of market prices.
  - `Book` is that state as a value. `BuyStep` and `SellStep` are the two trades as functions of
    it.
  - The class `Portfolio` keeps the same four cells as fields. Its methods `BuyCrypto`,
    `SellCrypto` and `SetMarketPrices` are proved to leave exactly the state the step functions
    give.
  - Net worth and the portfolio metrics are left folds over the holdings. The net-worth fold is
    proved equal to the plain sum of the holdings' values, the metrics' profit to the sum of the
    per-holding profits, and the volatility fold to the holdings' exposure divided by net worth.
    Per-holding profit and loss is stated in closed form.
  - Money and quantities are exact reals. Where the code divides without a guard, the result
    is a `Num` (module `Numbers`), which is a real, an infinity or NaN.
- **The dashboard's price hand-off** (`app.dfy`, module `Dashboard`). It builds the
  `id -> price` table from a market snapshot and replaces the ledger's table with it.
- **The live price stream service** (`stream.dfy`, module `PriceStream`), as a class with the
  service's fields:
  - the exchange-symbol table, with keys in insertion order;
  - the subscriber set, in insertion order;
  - the current socket;
  - the reconnect flag.

  Sockets are numbered in the order they are opened. Each records its stream path and its ready
  state. Three environment steps drive the service: a decoded message arriving (`OnMessage`),
  a socket's close event (`OnClose`) and the reconnect timer firing (`OnTimer`). Pending timers
  are counted, and the class invariant proves that at most one is ever pending.
- **The candle builder of the price chart** (`chart.dfy`, module `PriceChart`). It turns raw
  `[ms, price]` points into one candle per second (the first point of each second wins),
  sorted by time, plus one volume bar per candle.
  - The de-duplicating `map` is a loop with a set accumulator, proved equal to a prefix
    function.
  - The sort is proved to give strictly increasing times and a permutation.
  - Every `Math.random()` value is a parameter. `LoadChartData` requires each of them to lie in
    `[0, 1)`, and from that proves the volume range and, for non-negative prices, the wick bounds
    of every candle.

`wrappers.dfy` holds the shared `Option`, `Result` and `Outcome` types.

## Model

| member | source | states |
|---|---|---|
| PortfolioContext.Initial | src/context/PortfolioContext.jsx:15-30 | with nothing saved, a portfolio starts with 10000 in cash, no holdings, no trades and no prices; its net worth is then exactly 10000 |
| PortfolioContext.Portfolio.constructor | src/context/PortfolioContext.jsx:15-30 | the provider's four state cells start at those defaults, and the holdings invariant holds |
| PortfolioContext.Find | src/context/PortfolioContext.jsx:114 | `find` by id returns the first holding with that id, and nothing exactly when no holding has it |
| PortfolioContext.FindUnique | src/context/PortfolioContext.jsx:155 | when ids are unique, `find` returns the only holding with the id |
| PortfolioContext.NetWorthIsSum | src/context/PortfolioContext.jsx:57-63 | `CalculateNetWorth` (cash plus the `AssetsValue` fold of quantity times `PriceOf`, which reads a missing price as 0) is the cash plus the plain sum of the holdings' values, and is the cash alone with no holdings |
| PortfolioContext.AssetsValueIsSum | src/context/PortfolioContext.jsx:58-61 | the reduce over the holdings, a left fold, equals the plain first-to-last sum of quantity times price |
| PortfolioContext.AssetsValueConcat | src/context/PortfolioContext.jsx:57-63 | the net-worth fold is additive over a split of the holdings list |
| PortfolioContext.AssetsValueUpdate | src/context/PortfolioContext.jsx:57-63 | replacing one holding changes the holdings' value by exactly the difference between the old and new holding's values |
| PortfolioContext.AssetsValueRemove | src/context/PortfolioContext.jsx:57-63 | dropping one holding lowers the holdings' value by exactly that holding's value |
| PortfolioContext.NetWorthReadsOnlyHeldPrices | src/context/PortfolioContext.jsx:57-63 | net worth reads the price table only at held ids; a missing price counts as 0, so any table that agrees there gives the same net worth |
| PortfolioContext.CalculateProfitLoss | src/context/PortfolioContext.jsx:90-98 | the amount is quantity times (current price, or 0, minus average buy price); the percentage is that amount over the invested value times 100, and is not a finite number when the invested value is 0 |
| PortfolioContext.TotalProfitIsSumOfProfits | src/context/PortfolioContext.jsx:66-69 | the metrics' `netWorth - (totalInvested + balance)`, with `TotalInvested` the reduce of quantity times average price, equals the sum of the per-holding profit-or-loss amounts |
| PortfolioContext.VolatilityFoldIsExposure | src/context/PortfolioContext.jsx:73-78 | for a non-zero net worth, the weighted `VolatilityFold` (each weight `value / netWorth` times the `AssetVolatility` score: 2% for btc, 4% for eth, 6% otherwise) is finite and equals the holdings' exposure divided by net worth |
| PortfolioContext.ExposureBounds | src/context/PortfolioContext.jsx:73-78 | for non-negative holding values, the exposure lies between 2% and 6% of the holdings' value |
| PortfolioContext.ScaledVolatility | src/context/PortfolioContext.jsx:73-78 | the volatility in percent is 100 times exposure over net worth for a non-zero net worth, is not finite for a zero net worth with holdings, and is 0 with no holdings |
| PortfolioContext.SharpeRatio | src/context/PortfolioContext.jsx:80 | the ratio is 0 unless the volatility is `Positive` (`> 0`, false for NaN); for finite values it is profit over invested over the volatility fraction; with nothing invested and a positive volatility it is not finite |
| PortfolioContext.CalculatePortfolioMetrics | src/context/PortfolioContext.jsx:66-87 | total profit is the sum of per-holding profits; for a non-zero net worth the volatility is 100 times exposure over net worth; the Sharpe ratio is 0 whenever volatility is not positive and otherwise profit over invested over volatility fraction; with no holdings every metric is 0 |
| PortfolioContext.MetricsUnguarded | src/context/PortfolioContext.jsx:74-80 | the unguarded divisions show: a zero net worth with holdings makes the volatility non-finite, and a positive volatility with nothing invested makes the ratio non-finite |
| PortfolioContext.VolatilityBounded | src/context/PortfolioContext.jsx:66-80 | with non-negative cash and holding values and a positive net worth, the volatility is finite and between 0 and 6 percent |
| PortfolioContext.BuyAssets | src/context/PortfolioContext.jsx:113-137 | buying keeps quantities positive and ids unique, and buying an asset not held appends exactly one holding with the amount and the current price |
| PortfolioContext.BuyHeldAsset | src/context/PortfolioContext.jsx:114-126 | re-buying a held asset (the `Reprice` map over the holdings) changes only that holding: its quantity grows by the amount and its cost basis (quantity times average price) grows by exactly the purchase cost; order and all other holdings are unchanged |
| PortfolioContext.BuyStep | src/context/PortfolioContext.jsx:101-150 | a buy fails, with an insufficient-balance error, exactly when the cost exceeds the balance (an exact-balance buy succeeds); a success debits exactly the cost, leaves cash non-negative, keeps the prices and prepends one `BuyRecord` with the id, symbol, amount, price and total and no profit |
| PortfolioContext.Portfolio.BuyCrypto | src/context/PortfolioContext.jsx:101-150 | the buy method fails exactly when the step fails and then changes nothing; otherwise the new fields are the step's result, and the holdings invariant is kept |
| PortfolioContext.AverageBuyPriceIsWeightedMean | src/context/PortfolioContext.jsx:114-136 | after any series of buys of an asset not held before, there is one new holding at the end; its quantity is the total bought and its average price is the quantity-weighted mean of the purchase prices |
| PortfolioContext.BuyLotsShape | src/context/PortfolioContext.jsx:114-136 | a series of buys of an asset not held leaves every earlier holding in place and appends exactly one holding of that asset |
| PortfolioContext.BuyLotsCostBasis | src/context/PortfolioContext.jsx:118-120 | the new holding's quantity is the sum of the lots' quantities and its cost basis is the sum of the lots' costs |
| PortfolioContext.SellAssetsNotHeld | src/context/PortfolioContext.jsx:167-179 | selling an id that is not held leaves the holdings unchanged |
| PortfolioContext.SellAssetsAt | src/context/PortfolioContext.jsx:167-179 | `SellAssets` (the map-then-filter) selling from the one holding with the id reduces its quantity, or removes it when no positive quantity is left; every other holding keeps its place |
| PortfolioContext.SellAssetsValid | src/context/PortfolioContext.jsx:167-179 | selling keeps ids unique and quantities positive |
| PortfolioContext.RemoveKeepsValid | src/context/PortfolioContext.jsx:176 | filtering out one holding keeps ids unique and quantities positive |
| PortfolioContext.SellStep | src/context/PortfolioContext.jsx:153-194 | a sell fails, with an insufficient-quantity error, exactly when the first holding with the id is missing or holds less than the amount; a success credits exactly the revenue, keeps the prices and prepends one sell record |
| PortfolioContext.SellSucceedsIff | src/context/PortfolioContext.jsx:155-159 | with unique ids, a sell succeeds exactly when some holding of the asset covers the amount |
| PortfolioContext.SellEffect | src/context/PortfolioContext.jsx:167-179 | a successful sell changes only that holding: it is reduced, or removed when nothing positive is left, which under the guard means exactly the whole quantity was sold |
| PortfolioContext.SellRecordProfit | src/context/PortfolioContext.jsx:182-193 | a `SellRecord`'s realised profit `revenue - amount * avgBuyPrice` equals amount times (price minus average buy price) |
| PortfolioContext.SellRealisedProfit | src/context/PortfolioContext.jsx:182-193 | the record of a successful sell carries amount times (price minus the average buy price from before the sale) |
| PortfolioContext.SellCommits | src/context/PortfolioContext.jsx:161-193 | a sell that passes the guard commits exactly the new balance, the sold holdings, the prepended record and the unchanged prices, and keeps the holdings invariant |
| PortfolioContext.Portfolio.SellCrypto | src/context/PortfolioContext.jsx:153-194 | the sell method fails exactly when the step fails and then changes nothing; otherwise the new fields are the step's result, and the holdings invariant is kept |
| PortfolioContext.SellAllOfNew | src/context/PortfolioContext.jsx:167-179 | selling the whole of a just-appended holding removes it and restores the list |
| PortfolioContext.BuySellRoundTrip | src/context/PortfolioContext.jsx:101-194 | buying q > 0 of an asset not held at p and then selling q at p' succeeds, restores the holdings, leaves cash `start - q*p + q*p'`, records `q*(p' - p)` as the profit and keeps the older log below the two new records |
| PortfolioContext.BuyAddsValue | src/context/PortfolioContext.jsx:113-137 | whether or not the asset was held, a buy adds exactly the bought lot's value to the holdings |
| PortfolioContext.SellAssetsValue | src/context/PortfolioContext.jsx:167-179 | whether the holding shrinks or goes, a sell removes exactly the sold lot's value from the holdings |
| PortfolioContext.BuyAtMarketKeepsNetWorth | src/context/PortfolioContext.jsx:101-110 | a buy at the listed market price leaves net worth unchanged, because cash turns into an equal value of holdings |
| PortfolioContext.SellAtMarketKeepsNetWorth | src/context/PortfolioContext.jsx:153-164 | a sell at the listed market price leaves net worth unchanged |
| PortfolioContext.TradesKeepInvariant | src/context/PortfolioContext.jsx:101-194 | successful trades keep ids unique and quantities positive; a buy never makes cash negative, and neither does a sell of a non-negative amount at a non-negative price from non-negative cash (the sell guard does not reject a negative amount) |
| PortfolioContext.NegativeSellPassesGuard | src/context/PortfolioContext.jsx:155-164 | the sell guard tests only whether the holding covers the amount, so selling -1 of a coin priced 50 from no cash succeeds and leaves a balance of -50 |
| PortfolioContext.Portfolio.SetMarketPrices | src/context/PortfolioContext.jsx:30 | the price table is replaced wholesale and nothing else changes |
| Numbers.Add | src/context/PortfolioContext.jsx:77 | JavaScript addition: finite operands add exactly, NaN propagates, and a non-finite operand gives a non-finite sum |
| Numbers.Mul | src/context/PortfolioContext.jsx:77-78 | multiplying by a finite factor gives a finite number exactly when the operand is finite |
| Numbers.Div | src/context/PortfolioContext.jsx:74 | JavaScript division: a non-zero finite divisor divides exactly, a zero divisor never gives a finite number, and a non-finite dividend gives a non-finite quotient |
| Numbers.AccumulateFinite | src/context/PortfolioContext.jsx:77 | one step `v + weight * score` on finite numbers stays finite and exact |
| Dashboard.SnapshotPrices | src/App.jsx:29-32 | the `forEach` loop builds exactly `PriceTable`, the snapshot's table in which later coins overwrite earlier ones |
| Dashboard.PriceTableKeys | src/App.jsx:29-32 | the table has an entry exactly for the ids in the snapshot |
| Dashboard.PriceTableLastWins | src/App.jsx:52-55 | each id maps to the price of the last coin in the snapshot with that id |
| Dashboard.UnlistedIsWorthless | src/App.jsx:52-56 | a held coin missing from the snapshot is valued at 0 by the ledger after the hand-off |
| Dashboard.ApplySnapshot | src/App.jsx:52-56 | a load or poll replaces the ledger's prices with the snapshot's table and changes nothing else |
| PriceStream.PriceStreamService.constructor | src/services/PriceStreamService.js:6-11 | a new service has no socket, no subscribers, an empty table and the flag cleared |
| PriceStream.EmptyTable | src/services/PriceStreamService.js:9 | the empty map is a well-formed table with no keys |
| PriceStream.Put | src/services/PriceStreamService.js:18 | `Map.set` keeps the table well formed: keys stay distinct and the key list matches the map |
| PriceStream.PutLookup | src/services/PriceStreamService.js:18 | after `Map.set`, the key maps to the new id, other keys keep their ids, existing keys keep their order, and a new key goes last |
| PriceStream.Register | src/services/PriceStreamService.js:16-19 | the table after `init`'s `forEach` is well formed |
| PriceStream.RegisterKeys | src/services/PriceStreamService.js:16-19 | after `init`, a key is present exactly when it was present before or some coin's lower-cased symbol plus `usdt` is that key; earlier keys keep their order |
| PriceStream.RegisterKeeps | src/services/PriceStreamService.js:16-19 | `init` does not clear the table: a key no new coin has keeps its old id |
| PriceStream.RegisterLastWins | src/services/PriceStreamService.js:16-19 | a later coin with the same exchange symbol overwrites an earlier one |
| PriceStream.ExchangeSymbolOfTicker | src/services/PriceStreamService.js:17 | the exchange's spelling `Upper(symbol) + "USDT"` (`BTCUSDT` for `btc`) lower-cases to the key `ExchangeSymbol` builds from the coin, and every key is lower case |
| PriceStream.LowerOfUpper | src/services/PriceStreamService.js:32 | lower-casing forgets the case: an upper-cased string lower-cases like the original |
| PriceStream.LowerMakesLower | src/services/PriceStreamService.js:17 | `Lower` (`toLowerCase`) keeps the length, leaves no upper-case letter and leaves other characters alone |
| PriceStream.PriceStreamService.Init | src/services/PriceStreamService.js:14-22 | `init` registers every coin on top of the existing table, then connects on the new table's path; subscribers, flag and timers are unchanged |
| PriceStream.Shut | src/services/PriceStreamService.js:25 | closing the current socket moves it from open to closing and touches no other socket |
| PriceStream.PriceStreamService.Connect | src/services/PriceStreamService.js:24-28 | `connect` starts closing any current socket, then opens exactly one new socket on the table's stream path and makes it current |
| PriceStream.SplitJoin | src/services/PriceStreamService.js:27 | `Join` is undone by `Split` when no part contains the separator |
| PriceStream.StreamPathNamesEveryKey | src/services/PriceStreamService.js:27 | `StreamPath` (the `Tickers` of every key, joined by `/`) names `key@ticker` for every key of the table, in the table's order, and nothing else |
| PriceStream.Route | src/services/PriceStreamService.js:30-43 | a message yields an update exactly when its lower-cased symbol is in the table with a non-empty id; the update carries that id, the last price and the change |
| PriceStream.RouteRegistered | src/services/PriceStreamService.js:30-43 | a message whose symbol lower-cases, whatever its case, to the key of the last coin `init` registered under that key is routed to that coin's id, if the id is non-empty |
| PriceStream.RouteTicker | src/services/PriceStreamService.js:30-43 | the exchange's upper-case ticker message for the last coin `init` registered under that key is routed to that coin's id, if the id is non-empty |
| PriceStream.RouteUnknown | src/services/PriceStreamService.js:30-43 | a message whose symbol no coin registered is dropped |
| PriceStream.PriceStreamService.OnMessage | src/services/PriceStreamService.js:30-43 | a message on an open socket delivers nothing when it is dropped, and otherwise exactly the fan-out of its update |
| PriceStream.PriceStreamService.OnClose | src/services/PriceStreamService.js:45-53 | a close event marks the socket closed and schedules a timer only when no reconnect is pending; afterwards the flag is set and exactly one timer is pending |
| PriceStream.PriceStreamService.OnTimer | src/services/PriceStreamService.js:48-51 | the timer clears the flag, leaves no timer pending and reconnects |
| PriceStream.CloseStillReconnects | src/services/PriceStreamService.js:69-74 | after `init` and `close`, the closed socket's close event still schedules a reconnect, and the timer opens a new current socket on the same table's path |
| PriceStream.ReinitReconnectsForever | src/services/PriceStreamService.js:14-53 | a second `init` on a connected service closes the healthy socket; its close event schedules a reconnect whose `connect` closes the next healthy socket, so after two rounds a timer is due again while the current socket is open |
| PriceStream.AddMembers | src/services/PriceStreamService.js:61 | `Set.add` (`Add`) adds exactly the callback, is idempotent, keeps the set duplicate-free and keeps earlier members in order |
| PriceStream.PriceStreamService.Subscribe | src/services/PriceStreamService.js:60-61 | subscribing adds the callback with set semantics and keeps the subscribers duplicate-free |
| PriceStream.RemoveMembers | src/services/PriceStreamService.js:62 | `Set.delete` (`Remove`) removes exactly the callback and keeps every other one |
| PriceStream.RemoveAbsent | src/services/PriceStreamService.js:62 | deleting a callback that is not subscribed changes nothing |
| PriceStream.RemoveDistinct | src/services/PriceStreamService.js:62 | deleting keeps the subscribers duplicate-free |
| PriceStream.RemoveAt | src/services/PriceStreamService.js:62 | deleting a subscriber cuts exactly it out of the insertion order; the others keep their order, which is the order `notify` delivers in |
| PriceStream.SubscribeThenUnsubscribe | src/services/PriceStreamService.js:60-63 | the function `subscribe` returns undoes the subscription of a new callback |
| PriceStream.RemoveLast | src/services/PriceStreamService.js:62 | deleting the last-added callback gives back the set from before it was added |
| PriceStream.PriceStreamService.Unsubscribe | src/services/PriceStreamService.js:62 | the returned function reports whether the callback was subscribed and removes exactly it |
| PriceStream.Fanout | src/services/PriceStreamService.js:65-67 | `notify` makes one call per subscriber, in the set's order, each with the same update |
| PriceStream.FanoutOnce | src/services/PriceStreamService.js:65-67 | every current subscriber receives an update exactly once, and no other callback receives it |
| PriceStream.PriceStreamService.Notify | src/services/PriceStreamService.js:65-67 | the loop appends exactly the fan-out of the update to the delivery log |
| PriceStream.PriceStreamService.Close | src/services/PriceStreamService.js:69-74 | `close` starts closing the current socket and forgets it; a second call does nothing; subscribers, table and reconnect flag are untouched |
| PriceChart.SecondIsFloor | src/components/PriceChart.jsx:34 | a candle's time, `Second`, is the floor of the milliseconds over 1000 |
| PriceChart.HighBounds | src/components/PriceChart.jsx:44 | for non-negative prices and a draw in `[0, 1)`, `High` is at least the larger of open and close, and at most that value times 1.002 |
| PriceChart.LowBounds | src/components/PriceChart.jsx:45 | for non-negative prices and a draw in `[0, 1)`, `Low` is at most the smaller of open and close, at least that value times 0.998, and never negative |
| PriceChart.CandleBounds | src/components/PriceChart.jsx:34-47 | `CandleAt` gives a candle with the second of its point, closes at the point's price, opens at the previous raw point's price (its own for the first point), and its wick encloses the body within 0.2% |
| PriceChart.SeenMembers | src/components/PriceChart.jsx:31-36 | the seen-times set `Seen` holds exactly the seconds of the points passed so far |
| PriceChart.KeptTimes | src/components/PriceChart.jsx:33-49 | the kept candles (`Kept`, the `map(...).filter(Boolean)` result) carry exactly the seconds seen |
| PriceChart.KeptDistinct | src/components/PriceChart.jsx:33-49 | no two kept candles share a second |
| PriceChart.KeptCount | src/components/PriceChart.jsx:33-49 | there is one kept candle per distinct second, so never more candles than points |
| PriceChart.KeptCandles | src/components/PriceChart.jsx:33-49 | every kept candle is the one built for the first point of its second, and each such point has its candle |
| PriceChart.KeptWicks | src/components/PriceChart.jsx:38-47 | for non-negative prices and draws in `[0, 1)`, every kept candle's wick encloses its body within 0.2% |
| PriceChart.BuildCandles | src/components/PriceChart.jsx:31-49 | the loop with the `seenTimes` set builds exactly the kept candles |
| PriceChart.InsertPermutes | src/components/PriceChart.jsx:50 | one insertion step adds exactly the inserted candle |
| PriceChart.InsertIncreasing | src/components/PriceChart.jsx:50 | inserting a candle with a new time into increasing candles keeps them increasing |
| PriceChart.SortByTimeSorts | src/components/PriceChart.jsx:50 | `SortByTime` on candles with distinct times gives strictly increasing times and is a permutation |
| PriceChart.VolumeMatchesCandles | src/components/PriceChart.jsx:56-60 | `Volume` gives one bar per candle with the same time; it is green exactly when the close is not below the open and red otherwise, and its value lies in [0, 100) |
| PriceChart.LoadChartData | src/components/PriceChart.jsx:26-60 | missing or empty data is a no-data error; otherwise fewer than two distinct seconds is an insufficient-data error; on success the candles are the kept candles sorted, a permutation of them, one per distinct second, strictly increasing in time, at least two, with matching volume bars whose values lie in [0, 100); for non-negative prices every candle's wick encloses its body |

## Left out

- Persistence to and from `localStorage`, and the theme and currency preferences, are left
  out. They are I/O; the model's state is the in-memory cells.
- React machinery is left out: the context plumbing, and the fact that `buyCrypto` and
  `sellCrypto` check the rendered `balance`/`assets` while applying functional updates. Each
  trade is modelled as one atomic step on the current state.
- Transaction ids (`Date.now()`) and ISO timestamps are parameters. The `toFixed(2)` formatting
  of the metrics is left out; the metrics are modelled before they become strings.
- Floating-point rounding is left out: money, quantities and prices are exact reals. Division
  by zero is modelled with `Num`, without the sign of zero, so `x / 0` is read as `x / +0`.
- PortfolioContext.CalculateProfitLoss: for a zero invested value the percentage is stated
  only as not finite. Which of NaN or the infinities it is depends on the sign of zero, which is
  not modelled.
- PortfolioContext.Portfolio.BuyCrypto requires a positive amount. `buyCrypto` itself does not
  check the amount; its only caller rejects amounts that are not positive
  (src/components/MarketCard.jsx:16), so that check is a precondition here.
- The WebSocket transport is left out: the URL host, the `onerror` logging, and the
  `JSON.parse`/`parseFloat` decoding of payloads. Messages arrive already decoded, so a
  malformed payload, which throws inside the handler, is not modelled.
- `setTimeout` is left out. A scheduled reconnect is a pending-timer count, and the timer is
  modelled as an explicit `OnTimer` step without the 5-second delay.
- PriceStream.Lower lower-cases ASCII letters only; `toLowerCase` also maps other Unicode
  letters. PriceStream.Upper, the exchange's upper-case spelling of a symbol, is ASCII only too.
- Subscriber callbacks are opaque identities. A call is recorded in a delivery log and runs no
  code, so a callback that subscribes, unsubscribes or throws during `notify` is not modelled.
- Math.random is modelled by parameters: one draw per raw point for the high, one for the low,
  and one per candle for the volume bar, each in `[0, 1)`. The code draws only for kept points,
  and because any value in range is allowed, this is the same behaviour.
- Candle times are integer milliseconds, as the price history supplies them. A fractional or
  non-numeric timestamp is not modelled.
- PriceChart.SortByTime is an insertion sort, not the engine's `Array.prototype.sort`. The kept
  candles have distinct times, so any correct sort gives the same sequence; the model proves the
  result increasing and a permutation.
- Chart creation, series, resize handling and cleanup (src/components/PriceChart.jsx:62-147) are
  left out. They call a charting library whose code is not part of this model.
- The HTTP wrappers in src/services/api.js are left out, and so is the rest of src/App.jsx
  (polling interval, loading and error screens, demo flag). Only the price-table hand-off is
  modelled.
- The presentation components are left out: MarketCard, NetWorthCard, PortfolioTable,
  Leaderboard, ErrorBoundary and Background.

Behaviour of the code that a reader might not expect, modelled as written:

- `close()` neither cancels a pending reconnect nor clears the flag. Its socket's close event
  still schedules a reconnect (`PriceStream.CloseStillReconnects`).
- `init` adds to the symbol table rather than replacing it (`PriceStream.RegisterKeeps`).
- A second `init` on a connected service reconnects every 5 seconds for ever. Each reconnect's
  `connect()` closes the socket that was healthy, and that close event schedules the next
  reconnect (`PriceStream.ReinitReconnectsForever`).
- `sellCrypto` does not reject a negative amount; only its caller does
  (src/components/MarketCard.jsx:16). Such a sell passes the guard and lowers the balance
  (`PortfolioContext.NegativeSellPassesGuard`).
- The table maps exchange symbols to coin ids, not ids to symbols as the field's comment says
  (src/services/PriceStreamService.js:9).
- The stream service is never started by src/App.jsx. `Dashboard` models only the REST
  snapshot path that feeds the ledger's prices.
