/**
 * The candle transform of the price chart: raw `[ms, price]` points become one candle per
 * second (the first point of each second wins), sorted by time, with a volume point per candle.
 *
 * `Math.random()` draws are parameters: one sequence of draws for the highs, one for the lows
 * (both indexed by the raw point) and one for the volume values (indexed by the candle), each
 * draw in [0, 1).
 */
module PriceChart {
  import opened Wrappers

  datatype Point = Point(ms: int, price: real)

  datatype Candle = Candle(time: int, open: real, high: real, low: real, close: real)

  datatype VolumePoint = VolumePoint(time: int, value: real, color: string)

  datatype ChartError = NoHistoricalData | InsufficientDataPoints

  datatype ChartData = ChartData(candles: seq<Candle>, volume: seq<VolumePoint>)

  /** The relative spread of each candle's wick. */
  const Volatility: real := 0.002

  const Rising: string := "rgba(0, 255, 136, 0.3)"
  const Falling: string := "rgba(255, 0, 110, 0.3)"

  predicate Draws(rs: seq<real>) {
    forall i :: 0 <= i < |rs| ==> 0.0 <= rs[i] < 1.0
  }

  function Max(a: real, b: real): real { if a >= b then a else b }
  function Min(a: real, b: real): real { if a <= b then a else b }

  // ---------------------------------------------------------------------------
  // One candle
  // ---------------------------------------------------------------------------

  /** `Math.floor(ms / 1000)`: Dafny's integer division rounds down for a positive divisor. */
  function Second(ms: int): int {
    ms / 1000
  }

  lemma SecondIsFloor(ms: int)
    ensures Second(ms) * 1000 <= ms < Second(ms) * 1000 + 1000
  {
  }

  /** `Math.max(open, close) * (1 + Math.random() * volatility)`. */
  function High(open: real, close: real, r: real): real {
    Max(open, close) * (1.0 + r * Volatility)
  }

  /** `Math.min(open, close) * (1 - Math.random() * volatility)`. */
  function Low(open: real, close: real, r: real): real {
    Min(open, close) * (1.0 - r * Volatility)
  }

  /** `m * lo <= m * f <= m * hi` for a non-negative `m` and `lo <= f <= hi`. */
  lemma Scale(m: real, f: real, lo: real, hi: real)
    requires m >= 0.0 && lo <= f <= hi
    ensures m * lo <= m * f <= m * hi
  {
  }

  /** With prices that are not negative, the high sits at or above the body, by at most a
      factor of `1 + Volatility`. */
  lemma HighBounds(open: real, close: real, r: real)
    requires open >= 0.0 && close >= 0.0 && 0.0 <= r < 1.0
    ensures Max(open, close) <= High(open, close, r) <= Max(open, close) * (1.0 + Volatility)
  {
    assert High(open, close, r) == Max(open, close) + Max(open, close) * (r * Volatility);
    assert Max(open, close) * (1.0 + Volatility) == Max(open, close) + Max(open, close) * Volatility;
    Scale(Max(open, close), r * Volatility, 0.0, Volatility);
  }

  /** With prices that are not negative, the low sits at or below the body, by at most a
      factor of `1 - Volatility`, and is not negative. */
  lemma LowBounds(open: real, close: real, r: real)
    requires open >= 0.0 && close >= 0.0 && 0.0 <= r < 1.0
    ensures Min(open, close) * (1.0 - Volatility) <= Low(open, close, r) <= Min(open, close)
    ensures 0.0 <= Low(open, close, r)
  {
    assert Low(open, close, r) == Min(open, close) - Min(open, close) * (r * Volatility);
    assert Min(open, close) * (1.0 - Volatility) == Min(open, close) - Min(open, close) * Volatility;
    Scale(Min(open, close), r * Volatility, 0.0, Volatility);
  }

  /** The candle the `map` callback builds for raw point `i`: it closes at the point's price and
      opens at the price of the raw point before it, or at its own price for the first point. */
  function CandleAt(pts: seq<Point>, i: nat, rHigh: real, rLow: real): Candle
    requires i < |pts|
  {
    var close := pts[i].price;
    var open := if i > 0 then pts[i - 1].price else close;
    Candle(Second(pts[i].ms), open, High(open, close, rHigh), Low(open, close, rLow), close)
  }

  /** The wick of a candle encloses its body and reaches at most 0.2% beyond it. */
  predicate WickEncloses(c: Candle) {
    && Max(c.open, c.close) <= c.high <= Max(c.open, c.close) * (1.0 + Volatility)
    && Min(c.open, c.close) * (1.0 - Volatility) <= c.low <= Min(c.open, c.close)
    && 0.0 <= c.low <= c.high
  }

  predicate NonNegativePrices(pts: seq<Point>) {
    forall i :: 0 <= i < |pts| ==> pts[i].price >= 0.0
  }

  /** The parts of a candle, for prices that are not negative. */
  lemma CandleBounds(pts: seq<Point>, i: nat, rHigh: real, rLow: real)
    requires i < |pts| && pts[i].price >= 0.0 && (i > 0 ==> pts[i - 1].price >= 0.0)
    requires 0.0 <= rHigh < 1.0 && 0.0 <= rLow < 1.0
    ensures CandleAt(pts, i, rHigh, rLow).time == Second(pts[i].ms)
    ensures CandleAt(pts, i, rHigh, rLow).close == pts[i].price
    ensures CandleAt(pts, i, rHigh, rLow).open == if i > 0 then pts[i - 1].price else pts[i].price
    ensures WickEncloses(CandleAt(pts, i, rHigh, rLow))
  {
    HighBounds(if i > 0 then pts[i - 1].price else pts[i].price, pts[i].price, rHigh);
    LowBounds(if i > 0 then pts[i - 1].price else pts[i].price, pts[i].price, rLow);
  }

  // ---------------------------------------------------------------------------
  // De-duplication: the seen-times set and the kept candles
  // ---------------------------------------------------------------------------

  /** The set `seenTimes` after the first `n` points. */
  function Seen(pts: seq<Point>, n: nat): set<int>
    requires n <= |pts|
  {
    if n == 0 then {} else Seen(pts, n - 1) + {Second(pts[n - 1].ms)}
  }

  /** Raw point `i` is the first of its second. */
  predicate FirstOfSecond(pts: seq<Point>, i: nat)
    requires i < |pts|
  {
    Second(pts[i].ms) !in Seen(pts, i)
  }

  /** The `map(...).filter(Boolean)` pipeline over the first `n` points. */
  function Kept(pts: seq<Point>, rHigh: seq<real>, rLow: seq<real>, n: nat): seq<Candle>
    requires n <= |pts| && |rHigh| == |pts| && |rLow| == |pts|
  {
    if n == 0 then []
    else if FirstOfSecond(pts, n - 1) then Kept(pts, rHigh, rLow, n - 1) + [CandleAt(pts, n - 1, rHigh[n - 1], rLow[n - 1])]
    else Kept(pts, rHigh, rLow, n - 1)
  }

  lemma {:induction false} SeenMembers(pts: seq<Point>, n: nat)
    requires n <= |pts|
    ensures forall t :: t in Seen(pts, n) <==> exists j :: 0 <= j < n && Second(pts[j].ms) == t
    decreases n
  {
    if n > 0 {
      SeenMembers(pts, n - 1);
    }
  }

  predicate DistinctTimes(cs: seq<Candle>) {
    forall i, j :: 0 <= i < j < |cs| ==> cs[i].time != cs[j].time
  }

  /** The kept candles carry exactly the seconds seen. */
  lemma {:induction false} KeptTimes(pts: seq<Point>, rHigh: seq<real>, rLow: seq<real>, n: nat)
    requires n <= |pts| && |rHigh| == |pts| && |rLow| == |pts|
    ensures forall k :: 0 <= k < |Kept(pts, rHigh, rLow, n)| ==> Kept(pts, rHigh, rLow, n)[k].time in Seen(pts, n)
    ensures forall t :: t in Seen(pts, n) ==>
      exists k :: 0 <= k < |Kept(pts, rHigh, rLow, n)| && Kept(pts, rHigh, rLow, n)[k].time == t
    decreases n
  {
    if n > 0 {
      KeptTimes(pts, rHigh, rLow, n - 1);
      if FirstOfSecond(pts, n - 1) {
        var m := n - 1;
        var before := Kept(pts, rHigh, rLow, m);
        var after := Kept(pts, rHigh, rLow, n);
        assert after == before + [CandleAt(pts, m, rHigh[m], rLow[m])];
        forall t | t in Seen(pts, n)
          ensures exists k :: 0 <= k < |after| && after[k].time == t
        {
          if t in Seen(pts, m) {
            var k :| 0 <= k < |before| && before[k].time == t;
            assert after[k] == before[k];
          } else {
            assert after[|before|].time == t;
          }
        }
      } else {
        assert Seen(pts, n) == Seen(pts, n - 1);
        assert Kept(pts, rHigh, rLow, n) == Kept(pts, rHigh, rLow, n - 1);
      }
    }
  }

  /** No two kept candles share a second. */
  lemma {:induction false} KeptDistinct(pts: seq<Point>, rHigh: seq<real>, rLow: seq<real>, n: nat)
    requires n <= |pts| && |rHigh| == |pts| && |rLow| == |pts|
    ensures DistinctTimes(Kept(pts, rHigh, rLow, n))
    decreases n
  {
    if n > 0 {
      KeptDistinct(pts, rHigh, rLow, n - 1);
      KeptTimes(pts, rHigh, rLow, n - 1);
    }
  }

  /** There is one candle per distinct second, so never more candles than points. */
  lemma {:induction false} KeptCount(pts: seq<Point>, rHigh: seq<real>, rLow: seq<real>, n: nat)
    requires n <= |pts| && |rHigh| == |pts| && |rLow| == |pts|
    ensures |Kept(pts, rHigh, rLow, n)| == |Seen(pts, n)| <= n
    decreases n
  {
    if n > 0 {
      KeptCount(pts, rHigh, rLow, n - 1);
      if !FirstOfSecond(pts, n - 1) {
        assert Seen(pts, n) == Seen(pts, n - 1);
      }
    }
  }

  /** Every candle is the one built for the first point of its second, and every such point has
      its candle. */
  lemma {:induction false} KeptCandles(pts: seq<Point>, rHigh: seq<real>, rLow: seq<real>, n: nat)
    requires n <= |pts| && |rHigh| == |pts| && |rLow| == |pts|
    ensures forall c :: c in Kept(pts, rHigh, rLow, n) ==>
      exists i :: 0 <= i < n && FirstOfSecond(pts, i) && c == CandleAt(pts, i, rHigh[i], rLow[i])
    ensures forall i :: 0 <= i < n && FirstOfSecond(pts, i) ==>
      CandleAt(pts, i, rHigh[i], rLow[i]) in Kept(pts, rHigh, rLow, n)
    decreases n
  {
    if n > 0 {
      KeptCandles(pts, rHigh, rLow, n - 1);
    }
  }

  /** For non-negative prices and draws in `[0, 1)`, every kept candle's wick encloses its body. */
  lemma KeptWicks(pts: seq<Point>, rHigh: seq<real>, rLow: seq<real>)
    requires |rHigh| == |pts| && |rLow| == |pts| && Draws(rHigh) && Draws(rLow)
    requires NonNegativePrices(pts)
    ensures forall c :: c in Kept(pts, rHigh, rLow, |pts|) ==> WickEncloses(c)
  {
    KeptCandles(pts, rHigh, rLow, |pts|);
    forall c | c in Kept(pts, rHigh, rLow, |pts|) ensures WickEncloses(c) {
      var i :| 0 <= i < |pts| && FirstOfSecond(pts, i) && c == CandleAt(pts, i, rHigh[i], rLow[i]);
      CandleBounds(pts, i, rHigh[i], rLow[i]);
    }
  }

  /** The `map` callback run over the points, with `seenTimes` as a set accumulator. */
  method BuildCandles(pts: seq<Point>, rHigh: seq<real>, rLow: seq<real>) returns (cs: seq<Candle>)
    requires |rHigh| == |pts| && |rLow| == |pts|
    ensures cs == Kept(pts, rHigh, rLow, |pts|)
  {
    var seenTimes: set<int> := {};
    cs := [];
    var i := 0;
    while i < |pts|
      invariant 0 <= i <= |pts|
      invariant seenTimes == Seen(pts, i)
      invariant cs == Kept(pts, rHigh, rLow, i)
    {
      var time := pts[i].ms / 1000;
      if time !in seenTimes {
        seenTimes := seenTimes + {time};
        var price := pts[i].price;
        var prevPrice := if i > 0 then pts[i - 1].price else price;
        var open, close := prevPrice, price;
        var high := High(open, close, rHigh[i]);
        var low := Low(open, close, rLow[i]);
        cs := cs + [Candle(time, open, high, low, close)];
      }
      i := i + 1;
    }
  }

  // ---------------------------------------------------------------------------
  // Sorting by time
  // ---------------------------------------------------------------------------

  predicate Increasing(cs: seq<Candle>) {
    forall i, j :: 0 <= i < j < |cs| ==> cs[i].time < cs[j].time
  }

  /** Insert `c` before the first candle that is not earlier. */
  function Insert(c: Candle, cs: seq<Candle>): seq<Candle> {
    if cs == [] then [c]
    else if c.time <= cs[0].time then [c] + cs
    else [cs[0]] + Insert(c, cs[1..])
  }

  /** `sort((a, b) => a.time - b.time)`, as an insertion sort. */
  function SortByTime(cs: seq<Candle>): seq<Candle> {
    if cs == [] then [] else Insert(cs[0], SortByTime(cs[1..]))
  }

  predicate TimeFree(cs: seq<Candle>, t: int) {
    forall i :: 0 <= i < |cs| ==> cs[i].time != t
  }

  /** Inserting adds exactly one candle. */
  lemma {:induction false} InsertPermutes(c: Candle, cs: seq<Candle>)
    ensures multiset(Insert(c, cs)) == multiset(cs) + multiset{c}
    decreases |cs|
  {
    if cs != [] && c.time > cs[0].time {
      InsertPermutes(c, cs[1..]);
      assert cs == [cs[0]] + cs[1..];
    }
  }

  /** A candle earlier than every candle of an increasing sequence can go in front of it. */
  lemma ConsIncreasing(c: Candle, cs: seq<Candle>)
    requires Increasing(cs)
    requires forall j :: 0 <= j < |cs| ==> c.time < cs[j].time
    ensures Increasing([c] + cs)
  {
    forall i, j | 0 <= i < j < |[c] + cs| ensures ([c] + cs)[i].time < ([c] + cs)[j].time {
      if i > 0 {
        assert ([c] + cs)[i] == cs[i - 1];
      }
      assert ([c] + cs)[j] == cs[j - 1];
    }
  }

  /** Inserting a candle whose time is new into increasing candles keeps them increasing. */
  lemma {:induction false} InsertIncreasing(c: Candle, cs: seq<Candle>)
    requires Increasing(cs) && TimeFree(cs, c.time)
    ensures Increasing(Insert(c, cs))
    decreases |cs|
  {
    if cs == [] {
    } else if c.time <= cs[0].time {
      assert c.time < cs[0].time;
      ConsIncreasing(c, cs);
    } else {
      var rest := Insert(c, cs[1..]);
      InsertIncreasing(c, cs[1..]);
      InsertPermutes(c, cs[1..]);
      forall j | 0 <= j < |rest| ensures cs[0].time < rest[j].time {
        assert rest[j] in multiset(cs[1..]) + multiset{c};
        if rest[j] != c {
          var k :| 0 <= k < |cs[1..]| && cs[1..][k] == rest[j];
          assert cs[k + 1] == rest[j];
        }
      }
      ConsIncreasing(cs[0], rest);
    }
  }

  /** Sorting candles with distinct times gives them in strictly increasing time, and is a
      permutation. */
  lemma {:induction false} SortByTimeSorts(cs: seq<Candle>)
    requires DistinctTimes(cs)
    ensures Increasing(SortByTime(cs))
    ensures multiset(SortByTime(cs)) == multiset(cs)
    ensures |SortByTime(cs)| == |cs|
    decreases |cs|
  {
    if cs != [] {
      assert cs == [cs[0]] + cs[1..];
      SortByTimeSorts(cs[1..]);
      forall i | 0 <= i < |SortByTime(cs[1..])| ensures SortByTime(cs[1..])[i].time != cs[0].time {
        assert SortByTime(cs[1..])[i] in multiset(cs[1..]);
      }
      InsertIncreasing(cs[0], SortByTime(cs[1..]));
      InsertPermutes(cs[0], SortByTime(cs[1..]));
      assert |SortByTime(cs)| == |multiset(SortByTime(cs))|;
    }
  }

  // ---------------------------------------------------------------------------
  // Volume points and the whole transform
  // ---------------------------------------------------------------------------

  /** The volume histogram: one bar per candle, green when the candle did not fall. */
  function Volume(cs: seq<Candle>, rVolume: seq<real>): seq<VolumePoint>
    requires |rVolume| >= |cs|
  {
    seq(|cs|, i requires 0 <= i < |cs| =>
      VolumePoint(cs[i].time, rVolume[i] * 100.0, if cs[i].close >= cs[i].open then Rising else Falling))
  }

  lemma VolumeMatchesCandles(cs: seq<Candle>, rVolume: seq<real>)
    requires |rVolume| >= |cs| && Draws(rVolume)
    ensures |Volume(cs, rVolume)| == |cs|
    ensures forall i :: 0 <= i < |cs| ==>
      && Volume(cs, rVolume)[i].time == cs[i].time
      && (Volume(cs, rVolume)[i].color == Rising <==> cs[i].close >= cs[i].open)
      && (Volume(cs, rVolume)[i].color == Falling <==> cs[i].close < cs[i].open)
      && 0.0 <= Volume(cs, rVolume)[i].value < 100.0
  {
  }

  /** The transform inside `loadChartData`: missing or empty data, or fewer than two distinct
      seconds, is an error; otherwise the sorted candles and their volume bars. */
  method LoadChartData(prices: Option<seq<Point>>, rHigh: seq<real>, rLow: seq<real>, rVolume: seq<real>)
    returns (r: Result<ChartData, ChartError>)
    requires prices.Some? ==> |rHigh| == |prices.value| && |rLow| == |prices.value| && |rVolume| >= |prices.value|
    requires Draws(rHigh) && Draws(rLow) && Draws(rVolume)
    ensures (prices.None? || prices.value == []) <==> r.Failure? && r.error == NoHistoricalData
    ensures prices.Some? && prices.value != [] ==>
      (r.Failure? <==> |Seen(prices.value, |prices.value|)| < 2) &&
      (r.Failure? ==> r.error == InsufficientDataPoints)
    ensures r.Success? ==>
      && prices.Some? && |r.value.candles| <= |prices.value|
      && r.value.candles == SortByTime(Kept(prices.value, rHigh, rLow, |prices.value|))
      && multiset(r.value.candles) == multiset(Kept(prices.value, rHigh, rLow, |prices.value|))
      && |r.value.candles| == |Seen(prices.value, |prices.value|)|
      && r.value.volume == Volume(r.value.candles, rVolume)
      && Increasing(r.value.candles)
      && |r.value.candles| >= 2
      && (forall k :: 0 <= k < |r.value.volume| ==> 0.0 <= r.value.volume[k].value < 100.0)
      && (NonNegativePrices(prices.value) ==>
            forall k :: 0 <= k < |r.value.candles| ==> WickEncloses(r.value.candles[k]))
  {
    if prices.None? || |prices.value| == 0 {
      return Failure(NoHistoricalData);
    }
    var pts := prices.value;
    var raw := BuildCandles(pts, rHigh, rLow);
    KeptCount(pts, rHigh, rLow, |pts|);
    KeptDistinct(pts, rHigh, rLow, |pts|);
    SortByTimeSorts(raw);
    var chartData := SortByTime(raw);
    if |chartData| < 2 {
      return Failure(InsufficientDataPoints);
    }
    VolumeMatchesCandles(chartData, rVolume);
    if NonNegativePrices(pts) {
      KeptWicks(pts, rHigh, rLow);
      forall k | 0 <= k < |chartData| ensures WickEncloses(chartData[k]) {
        assert chartData[k] in multiset(raw);
      }
    }
    var volumeData := Volume(chartData, rVolume);
    r := Success(ChartData(chartData, volumeData));
  }
}
