/**
 * The portfolio ledger of one simulated trader: a cash balance, an ordered
 * list of holdings with their average buy price, a newest-first log of
 * trades, and the latest known market price of each asset.
 *
 * `Book` is the ledger's state as a value and `BuyStep` / `SellStep` are its
 * two trades as functions of that value; the class `Portfolio` holds the same
 * four state cells as fields and its methods are tied to those functions.
 * Money and quantities are exact reals.
 */
module PortfolioContext {
  import opened Wrappers
  import opened Numbers

  /** Cash a fresh portfolio starts with. */
  const StartingBalance: real := 10000.0

  /** A market listing as the trade operations receive it. */
  datatype Crypto = Crypto(id: string, symbol: string, name: string, currentPrice: real)

  datatype Holding = Holding(id: string, symbol: string, name: string, quantity: real, avgBuyPrice: real)

  datatype Kind = Buy | Sell

  /** One entry of the trade log; only sells carry a realised profit or loss. */
  datatype Transaction = Transaction(
    id: int, kind: Kind, symbol: string, name: string,
    quantity: real, price: real, total: real,
    profitLoss: Option<real>, timestamp: string)

  datatype Book = Book(
    balance: real,
    assets: seq<Holding>,
    transactions: seq<Transaction>,
    marketPrices: map<string, real>)

  datatype TradeError = InsufficientBalance | InsufficientAssetQuantity

  datatype ProfitLoss = ProfitLoss(amount: real, percentage: Num)

  datatype Metrics = Metrics(volatility: Num, sharpeRatio: Num, totalProfit: real)

  /** A purchase of `quantity` units at `price`, for the repeated-buy lemma. */
  datatype Lot = Lot(quantity: real, price: real)

  // ---------------------------------------------------------------------------
  // Invariant of the holdings list
  // ---------------------------------------------------------------------------

  predicate UniqueIds(assets: seq<Holding>) {
    forall i, j :: 0 <= i < j < |assets| ==> assets[i].id != assets[j].id
  }

  predicate PositiveQuantities(assets: seq<Holding>) {
    forall i :: 0 <= i < |assets| ==> assets[i].quantity > 0.0
  }

  predicate ValidHoldings(assets: seq<Holding>) {
    UniqueIds(assets) && PositiveQuantities(assets)
  }

  predicate NotHeld(assets: seq<Holding>, id: string) {
    forall i :: 0 <= i < |assets| ==> assets[i].id != id
  }

  /** The state a portfolio starts in when nothing was saved before. */
  function Initial(): (b: Book)
    ensures ValidHoldings(b.assets) && b.transactions == []
    ensures CalculateNetWorth(b) == StartingBalance
  {
    Book(StartingBalance, [], [], map[])
  }

  /** `assets.find(a => a.id === id)`, as the index of the first match. */
  function Find(assets: seq<Holding>, id: string): (r: Option<nat>)
    ensures r.Some? ==> r.value < |assets| && assets[r.value].id == id
    ensures r.Some? ==> forall j :: 0 <= j < r.value ==> assets[j].id != id
    ensures r.None? <==> NotHeld(assets, id)
  {
    if |assets| == 0 then None
    else if assets[0].id == id then Some(0)
    else match Find(assets[1..], id)
      case None => None
      case Some(k) => Some(k + 1)
  }

  lemma FindUnique(assets: seq<Holding>, id: string, k: nat)
    requires UniqueIds(assets) && k < |assets| && assets[k].id == id
    ensures Find(assets, id) == Some(k)
  {
  }

  // ---------------------------------------------------------------------------
  // Valuation folds
  // ---------------------------------------------------------------------------

  /** `marketPrices[id] || 0`: a missing price values the asset at zero. */
  function PriceOf(prices: map<string, real>, id: string): real {
    if id in prices then prices[id] else 0.0
  }

  function Value(h: Holding, prices: map<string, real>): real {
    h.quantity * PriceOf(prices, h.id)
  }

  /** The reduce over the holdings inside `calculateNetWorth`, as a left fold. */
  function AssetsValue(assets: seq<Holding>, prices: map<string, real>): real {
    if assets == [] then 0.0
    else AssetsValue(assets[..|assets| - 1], prices) + Value(assets[|assets| - 1], prices)
  }

  function CalculateNetWorth(b: Book): real {
    b.balance + AssetsValue(b.assets, b.marketPrices)
  }

  /** Reference definition: the plain sum, first holding first, of quantity times price. */
  function SumOfValues(assets: seq<Holding>, prices: map<string, real>): real {
    if assets == [] then 0.0 else Value(assets[0], prices) + SumOfValues(assets[1..], prices)
  }

  /** Net worth is the cash plus the sum of every holding's quantity times its listed price
      (0 when unlisted); with no holdings it is the cash alone. */
  lemma NetWorthIsSum(b: Book)
    ensures CalculateNetWorth(b) == b.balance + SumOfValues(b.assets, b.marketPrices)
    ensures b.assets == [] ==> CalculateNetWorth(b) == b.balance
  {
    AssetsValueIsSum(b.assets, b.marketPrices);
  }

  /** The left fold agrees with the plain sum. */
  lemma {:induction false} AssetsValueIsSum(assets: seq<Holding>, prices: map<string, real>)
    ensures AssetsValue(assets, prices) == SumOfValues(assets, prices)
    decreases |assets|
  {
    if assets != [] {
      assert assets == [assets[0]] + assets[1..];
      AssetsValueConcat([assets[0]], assets[1..], prices);
      AssetsValueSingle(assets[0], prices);
      AssetsValueIsSum(assets[1..], prices);
    }
  }

  lemma {:induction false} AssetsValueConcat(a: seq<Holding>, c: seq<Holding>, prices: map<string, real>)
    ensures AssetsValue(a + c, prices) == AssetsValue(a, prices) + AssetsValue(c, prices)
    decreases |c|
  {
    if c == [] {
      assert a + c == a;
    } else {
      var n := |c| - 1;
      assert (a + c)[..|a + c| - 1] == a + c[..n];
      AssetsValueConcat(a, c[..n], prices);
    }
  }

  lemma AssetsValueSingle(h: Holding, prices: map<string, real>)
    ensures AssetsValue([h], prices) == Value(h, prices)
  {
    assert [h][..0] == [];
  }

  /** Replacing one holding changes the total value by the difference of the two values. */
  lemma AssetsValueUpdate(a: seq<Holding>, k: nat, h: Holding, prices: map<string, real>)
    requires k < |a|
    ensures AssetsValue(a[k := h], prices) == AssetsValue(a, prices) - Value(a[k], prices) + Value(h, prices)
  {
    assert a == a[..k] + [a[k]] + a[k + 1..];
    assert a[k := h] == a[..k] + [h] + a[k + 1..];
    AssetsValueConcat(a[..k] + [a[k]], a[k + 1..], prices);
    AssetsValueConcat(a[..k] + [h], a[k + 1..], prices);
    AssetsValueConcat(a[..k], [a[k]], prices);
    AssetsValueConcat(a[..k], [h], prices);
    AssetsValueSingle(a[k], prices);
    AssetsValueSingle(h, prices);
  }

  /** Dropping one holding lowers the total value by that holding's value. */
  lemma AssetsValueRemove(a: seq<Holding>, k: nat, prices: map<string, real>)
    requires k < |a|
    ensures AssetsValue(a[..k] + a[k + 1..], prices) == AssetsValue(a, prices) - Value(a[k], prices)
  {
    assert a == a[..k] + [a[k]] + a[k + 1..];
    AssetsValueConcat(a[..k] + [a[k]], a[k + 1..], prices);
    AssetsValueConcat(a[..k], a[k + 1..], prices);
    AssetsValueConcat(a[..k], [a[k]], prices);
    AssetsValueSingle(a[k], prices);
  }

  /** Net worth reads the price table only at the ids that are held: prices of other assets, or
      a replaced table that agrees on the held ids, leave it unchanged. */
  lemma {:induction false} NetWorthReadsOnlyHeldPrices(b: Book, prices: map<string, real>)
    requires forall i :: 0 <= i < |b.assets| ==> PriceOf(prices, b.assets[i].id) == PriceOf(b.marketPrices, b.assets[i].id)
    ensures CalculateNetWorth(b.(marketPrices := prices)) == CalculateNetWorth(b)
  {
    AssetsValueSamePrices(b.assets, prices, b.marketPrices);
  }

  lemma {:induction false} AssetsValueSamePrices(a: seq<Holding>, p1: map<string, real>, p2: map<string, real>)
    requires forall i :: 0 <= i < |a| ==> PriceOf(p1, a[i].id) == PriceOf(p2, a[i].id)
    ensures AssetsValue(a, p1) == AssetsValue(a, p2)
    decreases |a|
  {
    if a != [] {
      AssetsValueSamePrices(a[..|a| - 1], p1, p2);
    }
  }

  /** Profit or loss of one holding at the current price. The percentage divides by the
      amount invested without a guard, so a zero cost basis yields NaN or an infinity. */
  function CalculateProfitLoss(prices: map<string, real>, asset: Holding): (r: ProfitLoss)
    ensures r.amount == asset.quantity * (PriceOf(prices, asset.id) - asset.avgBuyPrice)
    ensures asset.quantity * asset.avgBuyPrice != 0.0 ==>
      r.percentage == Fin(r.amount / (asset.quantity * asset.avgBuyPrice) * 100.0)
    ensures asset.quantity * asset.avgBuyPrice == 0.0 ==> !r.percentage.Fin?
  {
    var currentValue := asset.quantity * PriceOf(prices, asset.id);
    var investedValue := asset.quantity * asset.avgBuyPrice;
    ProfitLoss(currentValue - investedValue, Mul(Div(Fin(currentValue - investedValue), Fin(investedValue)), 100.0))
  }

  /** The sum of the per-holding profit or loss amounts. */
  function TotalProfitLoss(assets: seq<Holding>, prices: map<string, real>): real {
    if assets == [] then 0.0
    else TotalProfitLoss(assets[..|assets| - 1], prices) + CalculateProfitLoss(prices, assets[|assets| - 1]).amount
  }

  /** `assets.reduce((sum, a) => sum + a.quantity * a.avgBuyPrice, 0)`. */
  function TotalInvested(assets: seq<Holding>): real {
    if assets == [] then 0.0
    else TotalInvested(assets[..|assets| - 1]) + assets[|assets| - 1].quantity * assets[|assets| - 1].avgBuyPrice
  }

  /** The metrics' profit (net worth less cash less cost basis) is the sum of the holdings' profits. */
  lemma {:induction false} TotalProfitIsSumOfProfits(assets: seq<Holding>, prices: map<string, real>)
    ensures AssetsValue(assets, prices) - TotalInvested(assets) == TotalProfitLoss(assets, prices)
    decreases |assets|
  {
    if assets != [] {
      TotalProfitIsSumOfProfits(assets[..|assets| - 1], prices);
    }
  }

  /** The fixed per-symbol volatility score: 2% for btc, 4% for eth, 6% for anything else. */
  function AssetVolatility(symbol: string): real {
    if symbol == "btc" then 0.02 else if symbol == "eth" then 0.04 else 0.06
  }

  /** The volatility reduce before scaling to percent; each weight divides by `netWorth`
      without a guard. */
  function VolatilityFold(assets: seq<Holding>, prices: map<string, real>, netWorth: real): Num {
    if assets == [] then Fin(0.0)
    else
      var a := assets[|assets| - 1];
      var weight := Div(Fin(Value(a, prices)), Fin(netWorth));
      Add(VolatilityFold(assets[..|assets| - 1], prices, netWorth), Mul(weight, AssetVolatility(a.symbol)))
  }

  /** Reference definition: each holding's value times its volatility score. */
  function Exposure(assets: seq<Holding>, prices: map<string, real>): real {
    if assets == [] then 0.0
    else
      var a := assets[|assets| - 1];
      Exposure(assets[..|assets| - 1], prices) + Value(a, prices) * AssetVolatility(a.symbol)
  }

  lemma {:induction false} VolatilityFoldIsExposure(assets: seq<Holding>, prices: map<string, real>, netWorth: real)
    requires netWorth != 0.0
    ensures VolatilityFold(assets, prices, netWorth) == Fin(Exposure(assets, prices) / netWorth)
    decreases |assets|
  {
    if assets == [] {
      assert 0.0 / netWorth == 0.0;
    } else {
      var init, a := assets[..|assets| - 1], assets[|assets| - 1];
      VolatilityFoldIsExposure(init, prices, netWorth);
      VolatilityFoldUnfold(assets, prices, netWorth);
      ExposureUnfold(assets, prices);
      WeightedStep(VolatilityFold(assets, prices, netWorth), VolatilityFold(init, prices, netWorth),
                   Exposure(init, prices), Value(a, prices), AssetVolatility(a.symbol), netWorth,
                   Exposure(assets, prices));
    }
  }

  lemma VolatilityFoldUnfold(assets: seq<Holding>, prices: map<string, real>, netWorth: real)
    requires assets != []
    ensures var a := assets[|assets| - 1];
      VolatilityFold(assets, prices, netWorth) ==
        Add(VolatilityFold(assets[..|assets| - 1], prices, netWorth),
            Mul(Div(Fin(Value(a, prices)), Fin(netWorth)), AssetVolatility(a.symbol)))
  {
  }

  lemma ExposureUnfold(assets: seq<Holding>, prices: map<string, real>)
    requires assets != []
    ensures var a := assets[|assets| - 1];
      Exposure(assets, prices) == Exposure(assets[..|assets| - 1], prices) + Value(a, prices) * AssetVolatility(a.symbol)
  {
  }

  /** One step of the volatility fold, stated over plain values. */
  lemma WeightedStep(acc': Num, acc: Num, e: real, v: real, s: real, n: real, e': real)
    requires n != 0.0
    requires acc' == Add(acc, Mul(Div(Fin(v), Fin(n)), s))
    requires acc == Fin(e / n) && e' == e + v * s
    ensures acc' == Fin(e' / n)
  {
    DivFinite(v, n);
    AccumulateFinite(acc, e / n, Div(Fin(v), Fin(n)), v / n, s);
    DivisionDistributes(e, v, s, n);
  }

  lemma {:induction false} ExposureBounds(assets: seq<Holding>, prices: map<string, real>)
    requires forall i :: 0 <= i < |assets| ==> Value(assets[i], prices) >= 0.0
    ensures 0.02 * AssetsValue(assets, prices) <= Exposure(assets, prices) <= 0.06 * AssetsValue(assets, prices)
    decreases |assets|
  {
    if assets != [] {
      ExposureBounds(assets[..|assets| - 1], prices);
    }
  }

  lemma DivisionDistributes(e: real, v: real, s: real, n: real)
    requires n != 0.0
    ensures e / n + v / n * s == (e + v * s) / n
  {
    var x, y := e / n, v / n;
    assert e == x * n && v == y * n;
    assert e + v * s == (x + y * s) * n;
  }

  /** `volatility * 100`: the fold scaled to percent. With a zero net worth every weight is
      `x / 0`, so some holding makes the result non-finite. */
  function ScaledVolatility(assets: seq<Holding>, prices: map<string, real>, netWorth: real): (v: Num)
    ensures netWorth != 0.0 ==> v == Fin(100.0 * (Exposure(assets, prices) / netWorth))
    ensures netWorth == 0.0 && assets != [] ==> !v.Fin?
    ensures assets == [] ==> v == Fin(0.0)
  {
    if netWorth != 0.0 then
      VolatilityFoldIsExposure(assets, prices, netWorth);
      Mul(VolatilityFold(assets, prices, netWorth), 100.0)
    else
      Mul(VolatilityFold(assets, prices, netWorth), 100.0)
  }

  /** `volatility > 0 ? (totalProfit / totalInvested) / (volatility / 100) : 0`: zero unless the
      volatility is positive, the quotient when everything is finite, and non-finite when
      nothing was invested. */
  function SharpeRatio(totalProfit: real, totalInvested: real, volatility: Num): (r: Num)
    ensures !Positive(volatility) ==> r == Fin(0.0)
    ensures volatility.Fin? && volatility.value > 0.0 && totalInvested != 0.0 ==>
      r == Fin((totalProfit / totalInvested) / (volatility.value / 100.0))
    ensures Positive(volatility) && totalInvested == 0.0 ==> !r.Fin?
  {
    if Positive(volatility) then Div(Div(Fin(totalProfit), Fin(totalInvested)), Div(volatility, Fin(100.0)))
    else Fin(0.0)
  }

  /** Volatility (in percent), a Sharpe-like ratio and the unrealised profit of the whole
      portfolio, before they are formatted with `toFixed(2)`. */
  function CalculatePortfolioMetrics(b: Book): (m: Metrics)
    ensures m.totalProfit == TotalProfitLoss(b.assets, b.marketPrices)
    ensures CalculateNetWorth(b) != 0.0 ==>
      m.volatility == Fin(100.0 * (Exposure(b.assets, b.marketPrices) / CalculateNetWorth(b)))
    ensures !Positive(m.volatility) ==> m.sharpeRatio == Fin(0.0)
    ensures m.volatility.Fin? && m.volatility.value > 0.0 && TotalInvested(b.assets) != 0.0 ==>
      m.sharpeRatio == Fin((m.totalProfit / TotalInvested(b.assets)) / (m.volatility.value / 100.0))
    ensures b.assets == [] ==> m == Metrics(Fin(0.0), Fin(0.0), 0.0)
  {
    var netWorth := CalculateNetWorth(b);
    var totalInvested := TotalInvested(b.assets);
    var totalProfit := netWorth - (totalInvested + b.balance);
    var volatility := ScaledVolatility(b.assets, b.marketPrices, netWorth);
    TotalProfitIsSumOfProfits(b.assets, b.marketPrices);
    Metrics(volatility, SharpeRatio(totalProfit, totalInvested, volatility), totalProfit)
  }

  /** The unguarded divisions surface as non-finite metrics: a zero net worth with holdings
      makes the volatility non-finite, and a positive volatility with nothing invested makes
      the ratio non-finite. */
  lemma MetricsUnguarded(b: Book)
    ensures var m := CalculatePortfolioMetrics(b);
      (CalculateNetWorth(b) == 0.0 && b.assets != [] ==> !m.volatility.Fin?) &&
      (Positive(m.volatility) && TotalInvested(b.assets) == 0.0 ==> !m.sharpeRatio.Fin?)
  {
    var m := CalculatePortfolioMetrics(b);
    assert m.volatility == ScaledVolatility(b.assets, b.marketPrices, CalculateNetWorth(b));
  }

  /** With non-negative cash and holding values and a positive net worth, the volatility is
      finite and lies between 0 and 6 percent. */
  lemma VolatilityBounded(b: Book)
    requires b.balance >= 0.0
    requires forall i :: 0 <= i < |b.assets| ==> Value(b.assets[i], b.marketPrices) >= 0.0
    requires CalculateNetWorth(b) > 0.0
    ensures var m := CalculatePortfolioMetrics(b);
      m.volatility.Fin? && 0.0 <= m.volatility.value <= 6.0
  {
    var nw, av, ex := CalculateNetWorth(b), AssetsValue(b.assets, b.marketPrices), Exposure(b.assets, b.marketPrices);
    ExposureBounds(b.assets, b.marketPrices);
    assert 0.0 <= av <= nw;
    assert 0.0 <= ex <= 0.06 * nw;
    RatioBounds(ex, nw);
  }

  lemma RatioBounds(ex: real, nw: real)
    requires nw > 0.0 && 0.0 <= ex <= 0.06 * nw
    ensures 0.0 <= ex / nw <= 0.06
  {
    var x := ex / nw;
    assert ex == x * nw;
  }

  // ---------------------------------------------------------------------------
  // Trades
  // ---------------------------------------------------------------------------

  /** `prev.map(...)`: every holding with this id gets the new quantity and average price. */
  function Reprice(assets: seq<Holding>, id: string, quantity: real, avgBuyPrice: real): seq<Holding> {
    seq(|assets|, i requires 0 <= i < |assets| =>
      if assets[i].id == id then assets[i].(quantity := quantity, avgBuyPrice := avgBuyPrice) else assets[i])
  }

  /** What was paid for a holding: its quantity times its average buy price. */
  function CostBasis(h: Holding): real {
    h.quantity * h.avgBuyPrice
  }

  /** The holdings after buying `amount` units of `c` at its current price. */
  function BuyAssets(assets: seq<Holding>, c: Crypto, amount: real): (r: seq<Holding>)
    requires amount > 0.0 && PositiveQuantities(assets)
    ensures PositiveQuantities(r)
    ensures UniqueIds(assets) ==> UniqueIds(r)
    ensures NotHeld(assets, c.id) ==> r == assets + [Holding(c.id, c.symbol, c.name, amount, c.currentPrice)]
  {
    match Find(assets, c.id)
    case Some(k) =>
      var existing := assets[k];
      var totalQuantity := existing.quantity + amount;
      var totalCost := existing.quantity * existing.avgBuyPrice + amount * c.currentPrice;
      Reprice(assets, c.id, totalQuantity, totalCost / totalQuantity)
    case None =>
      assets + [Holding(c.id, c.symbol, c.name, amount, c.currentPrice)]
  }

  /** Re-buying a held asset: only that holding changes, its quantity grows by `amount` and its
      cost basis (quantity times average price) grows by the cost of the purchase. */
  lemma BuyHeldAsset(assets: seq<Holding>, c: Crypto, amount: real, k: nat)
    requires amount > 0.0 && ValidHoldings(assets)
    requires k < |assets| && assets[k].id == c.id
    ensures var r := BuyAssets(assets, c, amount);
      |r| == |assets| &&
      (forall j :: 0 <= j < |r| && j != k ==> r[j] == assets[j]) &&
      r[k].id == assets[k].id && r[k].symbol == assets[k].symbol && r[k].name == assets[k].name &&
      r[k].quantity == assets[k].quantity + amount &&
      CostBasis(r[k]) == CostBasis(assets[k]) + amount * c.currentPrice
  {
    FindUnique(assets, c.id, k);
    var q := assets[k].quantity + amount;
    var cost := assets[k].quantity * assets[k].avgBuyPrice + amount * c.currentPrice;
    assert q * (cost / q) == cost;
  }

  /** The holdings after selling `amount` units of `id`: `prev.map(...).filter(Boolean)`. */
  function SellAssets(assets: seq<Holding>, id: string, amount: real): seq<Holding> {
    if assets == [] then []
    else
      var rest := SellAssets(assets[1..], id, amount);
      var a := assets[0];
      if a.id != id then [a] + rest
      else if a.quantity - amount > 0.0 then [a.(quantity := a.quantity - amount)] + rest
      else rest
  }

  lemma {:induction false} SellAssetsNotHeld(assets: seq<Holding>, id: string, amount: real)
    requires NotHeld(assets, id)
    ensures SellAssets(assets, id, amount) == assets
    decreases |assets|
  {
    if assets != [] {
      SellAssetsNotHeld(assets[1..], id, amount);
    }
  }

  /** Selling from the one holding with this id reduces its quantity, or removes it when
      nothing positive is left; every other holding keeps its place and its value. */
  lemma SellAssetsAt(assets: seq<Holding>, id: string, amount: real, k: nat)
    requires k < |assets| && assets[k].id == id
    requires forall j :: 0 <= j < |assets| && j != k ==> assets[j].id != id
    ensures SellAssets(assets, id, amount) ==
      if assets[k].quantity - amount > 0.0
      then assets[k := assets[k].(quantity := assets[k].quantity - amount)]
      else assets[..k] + assets[k + 1..]
  {
    if assets[k].quantity - amount > 0.0 {
      SellAssetsShrink(assets, id, amount, k);
    } else {
      SellAssetsDrop(assets, id, amount, k);
    }
  }

  lemma {:induction false} SellAssetsShrink(assets: seq<Holding>, id: string, amount: real, k: nat)
    requires k < |assets| && assets[k].id == id && assets[k].quantity - amount > 0.0
    requires forall j :: 0 <= j < |assets| && j != k ==> assets[j].id != id
    ensures SellAssets(assets, id, amount) == assets[k := assets[k].(quantity := assets[k].quantity - amount)]
    decreases k
  {
    var tail := assets[1..];
    if k == 0 {
      SellAssetsNotHeld(tail, id, amount);
    } else {
      SellAssetsShrink(tail, id, amount, k - 1);
    }
  }

  lemma {:induction false} SellAssetsDrop(assets: seq<Holding>, id: string, amount: real, k: nat)
    requires k < |assets| && assets[k].id == id && assets[k].quantity - amount <= 0.0
    requires forall j :: 0 <= j < |assets| && j != k ==> assets[j].id != id
    ensures SellAssets(assets, id, amount) == assets[..k] + assets[k + 1..]
    decreases k
  {
    var tail := assets[1..];
    if k == 0 {
      SellAssetsNotHeld(tail, id, amount);
    } else {
      SellAssetsDrop(tail, id, amount, k - 1);
    }
  }

  lemma SellAssetsValid(assets: seq<Holding>, id: string, amount: real)
    requires ValidHoldings(assets)
    ensures ValidHoldings(SellAssets(assets, id, amount))
  {
    match Find(assets, id)
    case None =>
      SellAssetsNotHeld(assets, id, amount);
    case Some(k) =>
      SellAssetsAt(assets, id, amount, k);
      if assets[k].quantity - amount <= 0.0 {
        RemoveKeepsValid(assets, k);
      }
  }

  lemma RemoveKeepsValid(assets: seq<Holding>, k: nat)
    requires ValidHoldings(assets) && k < |assets|
    ensures ValidHoldings(assets[..k] + assets[k + 1..])
  {
    var r := assets[..k] + assets[k + 1..];
    forall i, j | 0 <= i < j < |r| ensures r[i].id != r[j].id {
      var i', j' := if i < k then i else i + 1, if j < k then j else j + 1;
      assert r[i] == assets[i'] && r[j] == assets[j'];
    }
  }

  /** A sell that passes the quantity check commits exactly these four cells. */
  lemma SellCommits(b: Book, c: Crypto, amount: real, txId: int, timestamp: string)
    requires ValidHoldings(b.assets)
    requires Find(b.assets, c.id).Some? && b.assets[Find(b.assets, c.id).value].quantity >= amount
    ensures ValidHoldings(SellAssets(b.assets, c.id, amount))
    ensures SellStep(b, c, amount, txId, timestamp).Success?
    ensures SellStep(b, c, amount, txId, timestamp).value ==
      (Book(b.balance + amount * c.currentPrice, SellAssets(b.assets, c.id, amount),
                   [SellRecord(c, amount, b.assets[Find(b.assets, c.id).value].avgBuyPrice, txId, timestamp)] + b.transactions,
                   b.marketPrices))
  {
    SellAssetsValid(b.assets, c.id, amount);
  }

  function BuyRecord(c: Crypto, amount: real, txId: int, timestamp: string): Transaction {
    Transaction(txId, Buy, c.symbol, c.name, amount, c.currentPrice, amount * c.currentPrice, None, timestamp)
  }

  /** `buyCrypto`: rejected exactly when the cost exceeds the cash (spending the whole balance is
      allowed); otherwise the cost is debited, the holdings updated and one record prepended. */
  function BuyStep(b: Book, c: Crypto, amount: real, txId: int, timestamp: string): (r: Result<Book, TradeError>)
    requires amount > 0.0 && PositiveQuantities(b.assets)
    ensures r.Failure? <==> amount * c.currentPrice > b.balance
    ensures r.Failure? ==> r.error == InsufficientBalance
    ensures r.Success? ==>
      && r.value.balance == b.balance - amount * c.currentPrice
      && r.value.balance >= 0.0
      && r.value.assets == BuyAssets(b.assets, c, amount)
      && r.value.marketPrices == b.marketPrices
      && |r.value.transactions| == |b.transactions| + 1
      && r.value.transactions[1..] == b.transactions
      && r.value.transactions[0].kind == Buy
      && r.value.transactions[0].id == txId && r.value.transactions[0].symbol == c.symbol
      && r.value.transactions[0].quantity == amount && r.value.transactions[0].price == c.currentPrice
      && r.value.transactions[0].total == amount * c.currentPrice
      && r.value.transactions[0].profitLoss.None?
  {
    var cost := amount * c.currentPrice;
    if cost > b.balance then Failure(InsufficientBalance)
    else Success(b.(balance := b.balance - cost,
                    assets := BuyAssets(b.assets, c, amount),
                    transactions := [BuyRecord(c, amount, txId, timestamp)] + b.transactions))
  }

  function SellRecord(c: Crypto, amount: real, avgBuyPrice: real, txId: int, timestamp: string): Transaction {
    var revenue := amount * c.currentPrice;
    Transaction(txId, Sell, c.symbol, c.name, amount, c.currentPrice, revenue,
                Some(revenue - amount * avgBuyPrice), timestamp)
  }

  /** The realised profit of a sale is the amount times the gain per unit over the average price. */
  lemma SellRecordProfit(c: Crypto, amount: real, avgBuyPrice: real, txId: int, timestamp: string)
    ensures SellRecord(c, amount, avgBuyPrice, txId, timestamp).profitLoss.Some?
    ensures SellRecord(c, amount, avgBuyPrice, txId, timestamp).profitLoss.value == amount * (c.currentPrice - avgBuyPrice)
  {
    var r := SellRecord(c, amount, avgBuyPrice, txId, timestamp);
    assert r.profitLoss.value == amount * c.currentPrice - amount * avgBuyPrice;
    assert amount * c.currentPrice - amount * avgBuyPrice == amount * (c.currentPrice - avgBuyPrice);
  }

  /** `sellCrypto`: rejected when the first holding with this id is missing or holds less than
      `amount`; otherwise the revenue is credited, the holdings updated and one record
      (with the realised profit against the pre-sale average price) prepended. */
  function SellStep(b: Book, c: Crypto, amount: real, txId: int, timestamp: string): (r: Result<Book, TradeError>)
    ensures r.Failure? <==> Find(b.assets, c.id).None? || b.assets[Find(b.assets, c.id).value].quantity < amount
    ensures r.Failure? ==> r.error == InsufficientAssetQuantity
    ensures r.Success? ==>
      && r.value.balance == b.balance + amount * c.currentPrice
      && r.value.assets == SellAssets(b.assets, c.id, amount)
      && r.value.marketPrices == b.marketPrices
      && |r.value.transactions| == |b.transactions| + 1
      && r.value.transactions[1..] == b.transactions
      && r.value.transactions[0].kind == Sell
  {
    match Find(b.assets, c.id)
    case None => Failure(InsufficientAssetQuantity)
    case Some(k) =>
      var asset := b.assets[k];
      if asset.quantity < amount then Failure(InsufficientAssetQuantity)
      else Success(b.(balance := b.balance + amount * c.currentPrice,
                      assets := SellAssets(b.assets, c.id, amount),
                      transactions := [SellRecord(c, amount, asset.avgBuyPrice, txId, timestamp)] + b.transactions))
  }

  /** With unique ids a sell succeeds exactly when some holding of the asset covers the amount. */
  lemma SellSucceedsIff(b: Book, c: Crypto, amount: real, txId: int, timestamp: string)
    requires UniqueIds(b.assets)
    ensures SellStep(b, c, amount, txId, timestamp).Success? <==>
      exists k :: 0 <= k < |b.assets| && b.assets[k].id == c.id && b.assets[k].quantity >= amount
  {
    if k :| 0 <= k < |b.assets| && b.assets[k].id == c.id && b.assets[k].quantity >= amount {
      FindUnique(b.assets, c.id, k);
    }
  }

  /** A successful sell from holding `k` changes that holding alone: it is reduced, or removed
      when nothing positive is left, which under the guard means exactly zero. */
  lemma SellEffect(b: Book, c: Crypto, amount: real, txId: int, timestamp: string, k: nat)
    requires UniqueIds(b.assets)
    requires k < |b.assets| && b.assets[k].id == c.id && b.assets[k].quantity >= amount
    ensures SellStep(b, c, amount, txId, timestamp).Success?
    ensures var h := b.assets[k];
      SellStep(b, c, amount, txId, timestamp).value.assets ==
        if h.quantity - amount > 0.0
        then b.assets[k := h.(quantity := h.quantity - amount)]
        else b.assets[..k] + b.assets[k + 1..]
    ensures b.assets[k].quantity - amount <= 0.0 ==> b.assets[k].quantity == amount
  {
    FindUnique(b.assets, c.id, k);
    SellAssetsAt(b.assets, c.id, amount, k);
  }

  /** The record of a successful sell from holding `k` carries `amount * (price - avgBuyPrice)`,
      with the average price from before the sale. */
  lemma SellRealisedProfit(b: Book, c: Crypto, amount: real, txId: int, timestamp: string, k: nat)
    requires UniqueIds(b.assets)
    requires k < |b.assets| && b.assets[k].id == c.id && b.assets[k].quantity >= amount
    ensures SellStep(b, c, amount, txId, timestamp).Success?
    ensures SellStep(b, c, amount, txId, timestamp).value.transactions[0] ==
      SellRecord(c, amount, b.assets[k].avgBuyPrice, txId, timestamp)
    ensures SellStep(b, c, amount, txId, timestamp).value.transactions[0].profitLoss.Some?
    ensures SellStep(b, c, amount, txId, timestamp).value.transactions[0].profitLoss.value ==
      amount * (c.currentPrice - b.assets[k].avgBuyPrice)
  {
    SellRecordAt(b, c, amount, txId, timestamp, k);
    SellRecordProfit(c, amount, b.assets[k].avgBuyPrice, txId, timestamp);
  }

  lemma SellRecordAt(b: Book, c: Crypto, amount: real, txId: int, timestamp: string, k: nat)
    requires UniqueIds(b.assets)
    requires k < |b.assets| && b.assets[k].id == c.id && b.assets[k].quantity >= amount
    ensures SellStep(b, c, amount, txId, timestamp).Success?
    ensures SellStep(b, c, amount, txId, timestamp).value.transactions[0] ==
      SellRecord(c, amount, b.assets[k].avgBuyPrice, txId, timestamp)
  {
    FindUnique(b.assets, c.id, k);
    var r := SellStep(b, c, amount, txId, timestamp);
    assert r.value.transactions == [SellRecord(c, amount, b.assets[k].avgBuyPrice, txId, timestamp)] + b.transactions;
  }

  /** Buying `q > 0` of an asset not held and then selling all of it restores the holdings,
      moves the cash by `q * (p' - p)` and records that as the realised profit. */
  lemma BuySellRoundTrip(b: Book, c: Crypto, sellPrice: real, q: real, id1: int, ts1: string, id2: int, ts2: string)
    requires ValidHoldings(b.assets) && NotHeld(b.assets, c.id)
    requires q > 0.0 && q * c.currentPrice <= b.balance
    ensures BuyStep(b, c, q, id1, ts1).Success?
    ensures var bought := BuyStep(b, c, q, id1, ts1).value;
      var sold := SellStep(bought, c.(currentPrice := sellPrice), q, id2, ts2);
      && sold.Success?
      && sold.value.assets == b.assets
      && sold.value.balance == b.balance - q * c.currentPrice + q * sellPrice
      && sold.value.transactions[0].profitLoss.Some?
      && sold.value.transactions[0].profitLoss.value == q * (sellPrice - c.currentPrice)
      && sold.value.transactions[2..] == b.transactions
  {
    var c' := c.(currentPrice := sellPrice);
    var h := Holding(c.id, c.symbol, c.name, q, c.currentPrice);
    var bought := BuyStep(b, c, q, id1, ts1).value;
    assert bought.assets == b.assets + [h];
    SellAllOfNew(b.assets, h);
    SellRecordAt(bought, c', q, id2, ts2, |b.assets|);
    var sold := SellStep(bought, c', q, id2, ts2).value;
    assert sold.transactions[2..] == sold.transactions[1..][1..];
    assert bought.assets[|b.assets|].avgBuyPrice == c.currentPrice;
    assert sold.transactions[0] == SellRecord(c', q, c.currentPrice, id2, ts2);
    SellRecordProfit(c', q, c.currentPrice, id2, ts2);
  }

  /** Selling the whole of a holding just appended removes it again. */
  lemma SellAllOfNew(a: seq<Holding>, h: Holding)
    requires NotHeld(a, h.id)
    ensures SellAssets(a + [h], h.id, h.quantity) == a
  {
    var a' := a + [h];
    SellAssetsAt(a', h.id, h.quantity, |a|);
    assert a'[..|a|] + a'[|a| + 1..] == a;
  }

  /** A purchase at the listed market price turns cash into an equal value of holdings. */
  lemma BuyAtMarketKeepsNetWorth(b: Book, c: Crypto, amount: real, txId: int, timestamp: string)
    requires amount > 0.0 && ValidHoldings(b.assets)
    requires PriceOf(b.marketPrices, c.id) == c.currentPrice
    requires BuyStep(b, c, amount, txId, timestamp).Success?
    ensures CalculateNetWorth(BuyStep(b, c, amount, txId, timestamp).value) == CalculateNetWorth(b)
  {
    BoughtKeepsNetWorth(b, BuyStep(b, c, amount, txId, timestamp).value, c, amount);
  }

  lemma BoughtKeepsNetWorth(b: Book, r: Book, c: Crypto, amount: real)
    requires amount > 0.0 && ValidHoldings(b.assets)
    requires PriceOf(b.marketPrices, c.id) == c.currentPrice
    requires r.balance == b.balance - amount * c.currentPrice
    requires r.assets == BuyAssets(b.assets, c, amount)
    requires r.marketPrices == b.marketPrices
    ensures CalculateNetWorth(r) == CalculateNetWorth(b)
  {
    var lot := Holding(c.id, c.symbol, c.name, amount, c.currentPrice);
    BuyAddsValue(b.assets, c, amount, b.marketPrices);
    LotValue(lot, c, amount, b.marketPrices);
    Exchange(b, r, amount * c.currentPrice, Value(lot, b.marketPrices));
  }

  /** A sale at the listed market price turns holdings into an equal amount of cash. */
  lemma SellAtMarketKeepsNetWorth(b: Book, c: Crypto, amount: real, txId: int, timestamp: string)
    requires ValidHoldings(b.assets)
    requires PriceOf(b.marketPrices, c.id) == c.currentPrice
    requires SellStep(b, c, amount, txId, timestamp).Success?
    ensures CalculateNetWorth(SellStep(b, c, amount, txId, timestamp).value) == CalculateNetWorth(b)
  {
    var k := Find(b.assets, c.id).value;
    FindUnique(b.assets, c.id, k);
    SoldKeepsNetWorth(b, SellStep(b, c, amount, txId, timestamp).value, c, amount, k);
  }

  lemma SoldKeepsNetWorth(b: Book, r: Book, c: Crypto, amount: real, k: nat)
    requires UniqueIds(b.assets)
    requires k < |b.assets| && b.assets[k].id == c.id && b.assets[k].quantity >= amount
    requires PriceOf(b.marketPrices, c.id) == c.currentPrice
    requires r.balance == b.balance + amount * c.currentPrice
    requires r.assets == SellAssets(b.assets, c.id, amount)
    requires r.marketPrices == b.marketPrices
    ensures CalculateNetWorth(r) == CalculateNetWorth(b)
  {
    var lot := b.assets[k].(quantity := amount);
    SellAssetsValue(b.assets, c.id, amount, k, b.marketPrices);
    LotValue(lot, c, amount, b.marketPrices);
    ExchangeBack(b, r, amount * c.currentPrice, Value(lot, b.marketPrices));
  }

  /** Paying `cost` for holdings worth `cost` leaves the net worth alone. */
  lemma Exchange(b: Book, r: Book, cost: real, v: real)
    requires r.marketPrices == b.marketPrices && v == cost
    requires r.balance == b.balance - cost
    requires AssetsValue(r.assets, b.marketPrices) == AssetsValue(b.assets, b.marketPrices) + v
    ensures CalculateNetWorth(r) == CalculateNetWorth(b)
  {
  }

  /** Receiving `revenue` for holdings worth `revenue` leaves the net worth alone. */
  lemma ExchangeBack(b: Book, r: Book, revenue: real, v: real)
    requires r.marketPrices == b.marketPrices && v == revenue
    requires r.balance == b.balance + revenue
    requires AssetsValue(r.assets, b.marketPrices) == AssetsValue(b.assets, b.marketPrices) - v
    ensures CalculateNetWorth(r) == CalculateNetWorth(b)
  {
  }

  /** A lot of `amount` units of `c`, at `c`'s listed price, is worth `amount` times that price. */
  lemma LotValue(lot: Holding, c: Crypto, amount: real, prices: map<string, real>)
    requires lot.id == c.id && lot.quantity == amount && PriceOf(prices, c.id) == c.currentPrice
    ensures Value(lot, prices) == amount * c.currentPrice
  {
    MulCongruent(lot.quantity, PriceOf(prices, lot.id), amount, c.currentPrice);
  }

  /** Buying adds the value of the bought lot to the holdings, whether or not the asset was held. */
  lemma BuyAddsValue(a: seq<Holding>, c: Crypto, amount: real, prices: map<string, real>)
    requires amount > 0.0 && ValidHoldings(a)
    ensures AssetsValue(BuyAssets(a, c, amount), prices) ==
      AssetsValue(a, prices) + Value(Holding(c.id, c.symbol, c.name, amount, c.currentPrice), prices)
  {
    var r := BuyAssets(a, c, amount);
    var lot := Holding(c.id, c.symbol, c.name, amount, c.currentPrice);
    match Find(a, c.id)
    case None =>
      assert r == a + [lot];
      AssetsValueConcat(a, [lot], prices);
      AssetsValueSingle(lot, prices);
    case Some(k) =>
      BuyHeldAsset(a, c, amount, k);
      assert r == a[k := r[k]];
      AssetsValueUpdate(a, k, r[k], prices);
      ValueAdd(a[k], lot, r[k], prices);
  }

  /** Selling `amount` from the only holding `k` of an asset removes that lot's value, whether
      the holding shrinks or goes. */
  lemma SellAssetsValue(a: seq<Holding>, id: string, amount: real, k: nat, prices: map<string, real>)
    requires UniqueIds(a)
    requires k < |a| && a[k].id == id && a[k].quantity >= amount
    ensures AssetsValue(SellAssets(a, id, amount), prices) ==
      AssetsValue(a, prices) - Value(a[k].(quantity := amount), prices)
  {
    SellAssetsAt(a, id, amount, k);
    if a[k].quantity - amount > 0.0 {
      AssetsValueUpdate(a, k, a[k].(quantity := a[k].quantity - amount), prices);
      ValueAdd(a[k].(quantity := a[k].quantity - amount), a[k].(quantity := amount), a[k], prices);
    } else {
      AssetsValueRemove(a, k, prices);
      assert a[k] == a[k].(quantity := amount);
    }
  }

  /** Holdings of the same asset are valued at the same price, so values add with quantities. */
  lemma ValueAdd(h1: Holding, h2: Holding, h: Holding, prices: map<string, real>)
    requires h1.id == h.id && h2.id == h.id && h.quantity == h1.quantity + h2.quantity
    ensures Value(h, prices) == Value(h1, prices) + Value(h2, prices)
  {
    var p := PriceOf(prices, h.id);
    MulCongruent(h1.quantity, PriceOf(prices, h1.id), h1.quantity, p);
    MulCongruent(h2.quantity, PriceOf(prices, h2.id), h2.quantity, p);
    MulCongruent(h.quantity, p, h1.quantity + h2.quantity, p);
    MulDistributes(h1.quantity, h2.quantity, p);
  }

  lemma MulCongruent(a: real, b: real, a': real, b': real)
    requires a == a' && b == b'
    ensures a * b == a' * b'
  {
  }

  lemma MulDistributes(a: real, d: real, p: real)
    ensures (a + d) * p == a * p + d * p
  {
  }

  /** The sell guard compares the held quantity with the amount only, so a negative amount
      passes it: from no cash, "selling" -1 of a coin priced 50 leaves a balance of -50. */
  lemma NegativeSellPassesGuard()
    ensures var b := Book(0.0, [Holding("x", "X", "Coin", 1.0, 10.0)], [], map[]);
      var r := SellStep(b, Crypto("x", "X", "Coin", 50.0), -1.0, 0, "");
      r.Success? && r.value.balance == -50.0
  {
    var b := Book(0.0, [Holding("x", "X", "Coin", 1.0, 10.0)], [], map[]);
    assert Find(b.assets, "x") == Some(0);
  }

  /** Successful trades keep ids unique and quantities positive; a buy never leaves negative
      cash, and neither does a sell of a non-negative amount at a non-negative price from
      non-negative cash. The sell guard itself does not reject a negative amount. */
  lemma TradesKeepInvariant(b: Book, c: Crypto, amount: real, txId: int, timestamp: string)
    requires ValidHoldings(b.assets)
    ensures amount > 0.0 && BuyStep(b, c, amount, txId, timestamp).Success? ==>
      ValidHoldings(BuyStep(b, c, amount, txId, timestamp).value.assets)
    ensures SellStep(b, c, amount, txId, timestamp).Success? ==>
      ValidHoldings(SellStep(b, c, amount, txId, timestamp).value.assets)
    ensures b.balance >= 0.0 && amount >= 0.0 && c.currentPrice >= 0.0 && SellStep(b, c, amount, txId, timestamp).Success? ==>
      SellStep(b, c, amount, txId, timestamp).value.balance >= 0.0
  {
    SellAssetsValid(b.assets, c.id, amount);
  }

  function LotsQuantity(lots: seq<Lot>): real {
    if lots == [] then 0.0 else LotsQuantity(lots[..|lots| - 1]) + lots[|lots| - 1].quantity
  }

  function LotsCost(lots: seq<Lot>): real {
    if lots == [] then 0.0
    else LotsCost(lots[..|lots| - 1]) + lots[|lots| - 1].quantity * lots[|lots| - 1].price
  }

  predicate PositiveLots(lots: seq<Lot>) {
    forall i :: 0 <= i < |lots| ==> lots[i].quantity > 0.0
  }

  /** The holdings after buying each lot of `c` in turn, at that lot's price. */
  function BuyLots(assets: seq<Holding>, c: Crypto, lots: seq<Lot>): (r: seq<Holding>)
    requires PositiveQuantities(assets) && PositiveLots(lots)
    ensures PositiveQuantities(r)
    decreases |lots|
  {
    if lots == [] then assets
    else
      var last := lots[|lots| - 1];
      BuyAssets(BuyLots(assets, c, lots[..|lots| - 1]), c.(currentPrice := last.price), last.quantity)
  }

  /** After any non-empty series of buys of an asset not held before, there is one new holding
      at the end whose quantity is the total bought and whose average price is the
      quantity-weighted average of the lots' prices. */
  lemma AverageBuyPriceIsWeightedMean(assets: seq<Holding>, c: Crypto, lots: seq<Lot>)
    requires ValidHoldings(assets) && NotHeld(assets, c.id)
    requires PositiveLots(lots) && lots != []
    ensures var r := BuyLots(assets, c, lots);
      && ValidHoldings(r)
      && |r| == |assets| + 1 && r[..|assets|] == assets
      && r[|assets|].id == c.id
      && r[|assets|].quantity == LotsQuantity(lots) > 0.0
      && r[|assets|].avgBuyPrice == LotsCost(lots) / LotsQuantity(lots)
  {
    BuyLotsShape(assets, c, lots);
    BuyLotsCostBasis(assets, c, lots);
    LotsQuantityPositive(lots);
    QuotientOf(BuyLots(assets, c, lots)[|assets|], LotsCost(lots), LotsQuantity(lots));
  }

  /** A series of buys of an asset not held appends one holding of it and changes nothing else. */
  lemma {:induction false} BuyLotsShape(assets: seq<Holding>, c: Crypto, lots: seq<Lot>)
    requires ValidHoldings(assets) && NotHeld(assets, c.id)
    requires PositiveLots(lots) && lots != []
    ensures var r := BuyLots(assets, c, lots);
      && ValidHoldings(r)
      && |r| == |assets| + 1 && r[..|assets|] == assets
      && r[|assets|].id == c.id
    decreases |lots|
  {
    var n := |assets|;
    var init, last := lots[..|lots| - 1], lots[|lots| - 1];
    var c' := c.(currentPrice := last.price);
    var prev := BuyLots(assets, c, init);
    var r := BuyLots(assets, c, lots);
    assert r == BuyAssets(prev, c', last.quantity);
    if init == [] {
      assert prev == assets;
    } else {
      BuyLotsShape(assets, c, init);
      BuyHeldAsset(prev, c', last.quantity, n);
      assert r[..n] == prev[..n];
    }
  }

  /** The induction behind the weighted mean: the new holding's quantity is the total bought and
      its cost basis (quantity times average price) the total paid. */
  lemma {:induction false} BuyLotsCostBasis(assets: seq<Holding>, c: Crypto, lots: seq<Lot>)
    requires ValidHoldings(assets) && NotHeld(assets, c.id)
    requires PositiveLots(lots) && lots != []
    ensures |BuyLots(assets, c, lots)| == |assets| + 1
    ensures BuyLots(assets, c, lots)[|assets|].quantity == LotsQuantity(lots)
    ensures CostBasis(BuyLots(assets, c, lots)[|assets|]) == LotsCost(lots)
    decreases |lots|
  {
    if |lots| == 1 {
      BuyFirstLot(assets, c, lots);
    } else {
      BuyLaterLot(assets, c, lots);
      BuyLotsCostBasis(assets, c, lots[..|lots| - 1]);
    }
  }

  /** Each lot after the first adds its quantity and its cost to the new holding. */
  lemma BuyLaterLot(assets: seq<Holding>, c: Crypto, lots: seq<Lot>)
    requires ValidHoldings(assets) && NotHeld(assets, c.id)
    requires PositiveLots(lots) && |lots| > 1
    ensures |BuyLots(assets, c, lots[..|lots| - 1])| == |assets| + 1
    ensures |BuyLots(assets, c, lots)| == |assets| + 1
    ensures BuyLots(assets, c, lots)[|assets|].quantity ==
      BuyLots(assets, c, lots[..|lots| - 1])[|assets|].quantity + lots[|lots| - 1].quantity
    ensures CostBasis(BuyLots(assets, c, lots)[|assets|]) ==
      CostBasis(BuyLots(assets, c, lots[..|lots| - 1])[|assets|]) + lots[|lots| - 1].quantity * lots[|lots| - 1].price
  {
    BuyLotsShape(assets, c, lots[..|lots| - 1]);
    RebuyLot(BuyLots(assets, c, lots[..|lots| - 1]), c, lots[|lots| - 1], |assets|);
    BuyLotsUnfold(assets, c, lots);
  }

  lemma BuyLotsUnfold(assets: seq<Holding>, c: Crypto, lots: seq<Lot>)
    requires PositiveQuantities(assets) && PositiveLots(lots) && lots != []
    ensures BuyLots(assets, c, lots) ==
      BuyAssets(BuyLots(assets, c, lots[..|lots| - 1]), c.(currentPrice := lots[|lots| - 1].price), lots[|lots| - 1].quantity)
  {
  }

  /** The first lot opens the holding at that lot's quantity and price. */
  lemma BuyFirstLot(assets: seq<Holding>, c: Crypto, lots: seq<Lot>)
    requires ValidHoldings(assets) && NotHeld(assets, c.id)
    requires PositiveLots(lots) && |lots| == 1
    ensures |BuyLots(assets, c, lots)| == |assets| + 1
    ensures BuyLots(assets, c, lots)[|assets|].quantity == lots[|lots| - 1].quantity
    ensures CostBasis(BuyLots(assets, c, lots)[|assets|]) == lots[|lots| - 1].quantity * lots[|lots| - 1].price
  {
    assert BuyLots(assets, c, lots[..|lots| - 1]) == assets;
  }

  /** Buying one more lot of a held asset, phrased for `BuyLots`' unfolding. */
  lemma RebuyLot(prev: seq<Holding>, c: Crypto, l: Lot, n: nat)
    requires ValidHoldings(prev) && n < |prev| && prev[n].id == c.id && l.quantity > 0.0
    ensures |BuyAssets(prev, c.(currentPrice := l.price), l.quantity)| == |prev|
    ensures BuyAssets(prev, c.(currentPrice := l.price), l.quantity)[n].quantity == prev[n].quantity + l.quantity
    ensures CostBasis(BuyAssets(prev, c.(currentPrice := l.price), l.quantity)[n]) == CostBasis(prev[n]) + l.quantity * l.price
  {
    BuyHeldAsset(prev, c.(currentPrice := l.price), l.quantity, n);
    MulCongruent(l.quantity, c.(currentPrice := l.price).currentPrice, l.quantity, l.price);
  }

  lemma {:induction false} LotsQuantityPositive(lots: seq<Lot>)
    requires PositiveLots(lots) && lots != []
    ensures LotsQuantity(lots) > 0.0
    decreases |lots|
  {
    if |lots| > 1 {
      LotsQuantityPositive(lots[..|lots| - 1]);
    }
  }

  /** The average price of a holding is its cost basis divided by its quantity. */
  lemma QuotientOf(h: Holding, cost: real, total: real)
    requires h.quantity == total && total > 0.0 && CostBasis(h) == cost
    ensures h.avgBuyPrice == cost / total
  {
  }

  // ---------------------------------------------------------------------------
  // The provider's state cells
  // ---------------------------------------------------------------------------

  /** The four state cells of the portfolio provider. Each trade is atomic here. */
  class Portfolio {
    var balance: real
    var assets: seq<Holding>
    var transactions: seq<Transaction>
    var marketPrices: map<string, real>

    function State(): Book
      reads this
    {
      Book(balance, assets, transactions, marketPrices)
    }

    predicate Valid()
      reads this
    {
      ValidHoldings(assets)
    }

    constructor ()
      ensures Valid() && State() == Initial()
    {
      balance := StartingBalance;
      assets := [];
      transactions := [];
      marketPrices := map[];
    }

    /** Replaces the whole price table, as each market snapshot does. */
    method SetMarketPrices(prices: map<string, real>)
      requires Valid()
      modifies this
      ensures Valid()
      ensures State() == old(State()).(marketPrices := prices)
    {
      marketPrices := prices;
    }

    method BuyCrypto(c: Crypto, amount: real, txId: int, timestamp: string) returns (r: Outcome<TradeError>)
      requires Valid() && amount > 0.0
      modifies this
      ensures Valid()
      ensures var step := BuyStep(old(State()), c, amount, txId, timestamp);
        && (r.Fail? <==> step.Failure?)
        && (step.Failure? ==> r.error == step.error && State() == old(State()))
        && (step.Success? ==> State() == step.value)
    {
      var cost := amount * c.currentPrice;
      if cost > balance {
        return Fail(InsufficientBalance);
      }
      balance := balance - cost;
      assets := BuyAssets(assets, c, amount);
      transactions := [BuyRecord(c, amount, txId, timestamp)] + transactions;
      r := Pass;
    }

    method SellCrypto(c: Crypto, amount: real, txId: int, timestamp: string) returns (r: Outcome<TradeError>)
      requires Valid()
      modifies this
      ensures Valid()
      ensures var step := SellStep(old(State()), c, amount, txId, timestamp);
        && (r.Fail? <==> step.Failure?)
        && (step.Failure? ==> r.error == step.error && State() == old(State()))
        && (step.Success? ==> State() == step.value)
    {
      var found := Find(assets, c.id);
      if found.None? || assets[found.value].quantity < amount {
        return Fail(InsufficientAssetQuantity);
      }
      var asset := assets[found.value];
      SellCommits(State(), c, amount, txId, timestamp);
      balance := balance + amount * c.currentPrice;
      assets := SellAssets(assets, c.id, amount);
      transactions := [SellRecord(c, amount, asset.avgBuyPrice, txId, timestamp)] + transactions;
      r := Pass;
    }
  }
}
