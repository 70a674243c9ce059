/** Estimation of each stock's drift and volatility from its daily prices.

    Doubles are modelled as `real`. The natural logarithm is left abstract:
    every member that takes a logarithm receives it as the parameter `ln`.
    Prices must be positive (the source divides by them and takes their
    logarithm) and a return series must be non-empty wherever the source
    divides by its length. */
module GatherDriftsAndVolatilities {

  /** Trading days per year, the annualisation factor of drift and volatility. */
  const TradingDays: real := 250.0

  /** The `[drift, volatility]` pair the source stores as a two-element list. */
  datatype AssetStatistics = AssetStatistics(drift: real, volatility: real)

  // ---------------------------------------------------------------------
  // Specification functions
  // ---------------------------------------------------------------------

  predicate AllPositive(prices: seq<real>) {
    forall i :: 0 <= i < |prices| ==> prices[i] > 0.0
  }

  predicate AllNonEmpty(series: seq<seq<real>>) {
    forall i :: 0 <= i < |series| ==> |series[i]| > 0
  }

  predicate AllEqual(s: seq<real>) {
    forall i, j :: 0 <= i < |s| && 0 <= j < |s| ==> s[i] == s[j]
  }

  /** The left-to-right total of a list; the total of an empty list is 0. */
  function Total(s: seq<real>): real {
    if s == [] then 0.0 else Total(s[..|s| - 1]) + s[|s| - 1]
  }

  function Mean(s: seq<real>): real
    requires |s| > 0
  {
    Total(s) / (|s| as real)
  }

  /** The log return from one day's price to the next, `ln(today / yesterday)`. */
  function LogReturn(ln: real -> real, yesterday: real, today: real): real
    requires yesterday > 0.0
  {
    ln(today / yesterday)
  }

  /** Day-over-day log returns: `ln(p[i+1] / p[i])`, one fewer than the prices. */
  function LogReturns(ln: real -> real, prices: seq<real>): seq<real>
    requires AllPositive(prices)
  {
    if |prices| < 2 then []
    else seq(|prices| - 1, i requires 0 <= i < |prices| - 1 => LogReturn(ln, prices[i], prices[i + 1]))
  }

  function LogReturnsOfStocks(ln: real -> real, pricesOfStocks: seq<seq<real>>): seq<seq<real>>
    requires forall i :: 0 <= i < |pricesOfStocks| ==> AllPositive(pricesOfStocks[i])
  {
    seq(|pricesOfStocks|, i requires 0 <= i < |pricesOfStocks| => LogReturns(ln, pricesOfStocks[i]))
  }

  function Centered(s: seq<real>, c: real): seq<real> {
    seq(|s|, i requires 0 <= i < |s| => s[i] - c)
  }

  /** `Math.pow(x, 2)`. */
  function Square(x: real): real {
    x * x
  }

  /** A product of two doubles, kept as a term of its own so that equal
      factors give equal products without nonlinear reasoning. */
  function Product(a: real, b: real): real {
    a * b
  }

  function Squares(s: seq<real>): seq<real> {
    seq(|s|, i requires 0 <= i < |s| => Square(s[i]))
  }

  /** Mean squared deviation of `s` about the reference point `c`. */
  function VarianceAbout(s: seq<real>, c: real): real
    requires |s| > 0
  {
    Total(Squares(Centered(s, c))) / (|s| as real)
  }

  /** Annualised drift: 250 times the total, divided by the number of returns. */
  function Drift(logReturns: seq<real>): real
    requires |logReturns| > 0
  {
    TradingDays * Total(logReturns) / (|logReturns| as real)
  }

  /** Annualised volatility (a variance): 250 times the variance about `drift / 250`. */
  function Volatility(logReturns: seq<real>): real
    requires |logReturns| > 0
  {
    TradingDays * VarianceAbout(logReturns, Drift(logReturns) / TradingDays)
  }

  function StatisticsOfStocks(returnsOfStocks: seq<seq<real>>): seq<AssetStatistics>
    requires AllNonEmpty(returnsOfStocks)
  {
    seq(|returnsOfStocks|, i requires 0 <= i < |returnsOfStocks| =>
      AssetStatistics(Drift(returnsOfStocks[i]), Volatility(returnsOfStocks[i])))
  }

  /** The price one day after `price` when the log return is `logReturn`. */
  function NextPrice(exp: real -> real, price: real, logReturn: real): real {
    price * exp(logReturn)
  }

  /** Rebuilds a price series from its first price and its log returns by
      cumulative exponentiation; the inverse of `LogReturns`. */
  function Accumulate(exp: real -> real, first: real, logReturns: seq<real>): (prices: seq<real>)
    ensures |prices| == |logReturns| + 1 && prices[0] == first
    decreases |logReturns|
  {
    if logReturns == [] then [first]
    else [first] + Accumulate(exp, NextPrice(exp, first, logReturns[0]), logReturns[1..])
  }

  // ---------------------------------------------------------------------
  // The source's operations
  // ---------------------------------------------------------------------

  /** One log return per consecutive pair of prices. */
  method GenerateLogReturnsOfStock(ln: real -> real, dailyPricesOfStock: seq<real>)
    returns (logReturns: seq<real>)
    requires AllPositive(dailyPricesOfStock)
    ensures |logReturns| == if |dailyPricesOfStock| == 0 then 0 else |dailyPricesOfStock| - 1
    ensures forall i :: 0 <= i < |logReturns| ==>
      logReturns[i] == LogReturn(ln, dailyPricesOfStock[i], dailyPricesOfStock[i + 1])
    ensures logReturns == LogReturns(ln, dailyPricesOfStock)
  {
    logReturns := [];
    var i := 0;
    while i < |dailyPricesOfStock| - 1
      invariant 0 <= i <= |dailyPricesOfStock| && (i == 0 || i < |dailyPricesOfStock|)
      invariant |logReturns| == i
      invariant forall k :: 0 <= k < i ==>
        logReturns[k] == LogReturn(ln, dailyPricesOfStock[k], dailyPricesOfStock[k + 1])
    {
      var logReturn := LogReturn(ln, dailyPricesOfStock[i], dailyPricesOfStock[i + 1]);
      logReturns := logReturns + [logReturn];
      i := i + 1;
    }
    assert forall k :: 0 <= k < |logReturns| ==> logReturns[k] == LogReturns(ln, dailyPricesOfStock)[k];
  }

  /** One return series per stock, in order; series i is computed from stock i alone. */
  method GenerateLogReturnsOfStocks(ln: real -> real, dailyPricesOfStocks: seq<seq<real>>)
    returns (logReturnsOfStocks: seq<seq<real>>)
    requires forall i :: 0 <= i < |dailyPricesOfStocks| ==> AllPositive(dailyPricesOfStocks[i])
    ensures |logReturnsOfStocks| == |dailyPricesOfStocks|
    ensures forall i :: 0 <= i < |dailyPricesOfStocks| ==>
      logReturnsOfStocks[i] == LogReturns(ln, dailyPricesOfStocks[i])
  {
    logReturnsOfStocks := [];
    var i := 0;
    while i < |dailyPricesOfStocks|
      invariant 0 <= i <= |dailyPricesOfStocks|
      invariant |logReturnsOfStocks| == i
      invariant forall k :: 0 <= k < i ==> logReturnsOfStocks[k] == LogReturns(ln, dailyPricesOfStocks[k])
    {
      var logReturnsOfStock := GenerateLogReturnsOfStock(ln, dailyPricesOfStocks[i]);
      logReturnsOfStocks := logReturnsOfStocks + [logReturnsOfStock];
      i := i + 1;
    }
  }

  /** The running total of the list, accumulated from the front. */
  method Sum(data: seq<real>) returns (sum: real)
    ensures sum == Total(data)
    ensures data == [] ==> sum == 0.0
  {
    sum := 0.0;
    var i := 0;
    while i < |data|
      invariant 0 <= i <= |data|
      invariant sum == Total(data[..i])
    {
      assert data[..i + 1][..i] == data[..i];
      sum := sum + data[i];
      i := i + 1;
    }
    assert data[..i] == data;
  }

  method ComputeDriftOfStock(logReturnsOfStock: seq<real>) returns (drift: real)
    requires |logReturnsOfStock| > 0
    ensures drift == Drift(logReturnsOfStock)
    ensures drift / TradingDays == Mean(logReturnsOfStock)
  {
    var total := Sum(logReturnsOfStock);
    drift := 250.0 * total / (|logReturnsOfStock| as real);
  }

  method ComputeVolatilityOfStock(logReturnsOfStock: seq<real>, driftOfStock: real)
    returns (volatilityOfStock: real)
    requires |logReturnsOfStock| > 0
    ensures volatilityOfStock == TradingDays * VarianceAbout(logReturnsOfStock, driftOfStock / TradingDays)
    ensures volatilityOfStock >= 0.0
    ensures driftOfStock == Drift(logReturnsOfStock) ==> volatilityOfStock == Volatility(logReturnsOfStock)
  {
    var v := Variance(logReturnsOfStock, driftOfStock / 250.0);
    volatilityOfStock := 250.0 * v;
  }

  /** The mean squared deviation about `mean`; never negative. */
  method Variance(data: seq<real>, mean: real) returns (variance: real)
    requires |data| > 0
    ensures variance == VarianceAbout(data, mean)
    ensures variance >= 0.0
  {
    var centeredData := Center(data, mean);
    var squaredCenteredData := SquareElements(centeredData);
    var total := Sum(squaredCenteredData);
    variance := total / (|data| as real);
    SquaresNonNegative(centeredData);
  }

  /** Subtracts `mean` from every element, keeping the length. */
  method Center(data: seq<real>, mean: real) returns (centeredData: seq<real>)
    ensures |centeredData| == |data|
    ensures forall i :: 0 <= i < |data| ==> centeredData[i] == data[i] - mean
    ensures centeredData == Centered(data, mean)
  {
    centeredData := [];
    var i := 0;
    while i < |data|
      invariant 0 <= i <= |data|
      invariant |centeredData| == i
      invariant forall k :: 0 <= k < i ==> centeredData[k] == data[k] - mean
    {
      centeredData := centeredData + [data[i] - mean];
      i := i + 1;
    }
  }

  /** Squares every element, keeping the length. */
  method SquareElements(data: seq<real>) returns (dataSquared: seq<real>)
    ensures |dataSquared| == |data|
    ensures forall i :: 0 <= i < |data| ==> dataSquared[i] == Square(data[i])
    ensures dataSquared == Squares(data)
  {
    dataSquared := [];
    var i := 0;
    while i < |data|
      invariant 0 <= i <= |data|
      invariant |dataSquared| == i
      invariant forall k :: 0 <= k < i ==> dataSquared[k] == Square(data[k])
    {
      dataSquared := dataSquared + [Square(data[i])];
      i := i + 1;
    }
    assert forall k :: 0 <= k < |data| ==> dataSquared[k] == Squares(data)[k];
  }

  /** One `[drift, volatility]` pair per stock, in order. The up-sample factor
      is accepted and ignored, as in the source. */
  method GatherStatisticsForStocks(logReturnsOfStocks: seq<seq<real>>, upSampleFactor: int)
    returns (driftsAndVolatilitiesOfStocks: seq<AssetStatistics>)
    requires AllNonEmpty(logReturnsOfStocks)
    ensures |driftsAndVolatilitiesOfStocks| == |logReturnsOfStocks|
    ensures forall i :: 0 <= i < |logReturnsOfStocks| ==>
      driftsAndVolatilitiesOfStocks[i].drift == Drift(logReturnsOfStocks[i]) &&
      driftsAndVolatilitiesOfStocks[i].volatility == Volatility(logReturnsOfStocks[i]) &&
      driftsAndVolatilitiesOfStocks[i].volatility >= 0.0
    ensures driftsAndVolatilitiesOfStocks == StatisticsOfStocks(logReturnsOfStocks)
  {
    driftsAndVolatilitiesOfStocks := [];
    var i := 0;
    while i < |logReturnsOfStocks|
      invariant 0 <= i <= |logReturnsOfStocks|
      invariant |driftsAndVolatilitiesOfStocks| == i
      invariant forall k :: 0 <= k < i ==>
        driftsAndVolatilitiesOfStocks[k] ==
          AssetStatistics(Drift(logReturnsOfStocks[k]), Volatility(logReturnsOfStocks[k])) &&
        driftsAndVolatilitiesOfStocks[k].volatility >= 0.0
    {
      var logReturnsOfStock := logReturnsOfStocks[i];
      var driftOfStock := ComputeDriftOfStock(logReturnsOfStock);
      var volatilityOfStock := ComputeVolatilityOfStock(logReturnsOfStock, driftOfStock);
      driftsAndVolatilitiesOfStocks := driftsAndVolatilitiesOfStocks + [AssetStatistics(driftOfStock, volatilityOfStock)];
      i := i + 1;
    }
  }

  // ---------------------------------------------------------------------
  // Properties of the estimates
  // ---------------------------------------------------------------------

  /** A total of non-negative terms is non-negative, and it is zero exactly
      when every term is zero. */
  lemma {:induction false} TotalOfNonNegatives(s: seq<real>)
    requires forall i :: 0 <= i < |s| ==> s[i] >= 0.0
    ensures Total(s) >= 0.0
    ensures Total(s) == 0.0 <==> forall i :: 0 <= i < |s| ==> s[i] == 0.0
  {
    if s != [] {
      var init := s[..|s| - 1];
      TotalOfNonNegatives(init);
      if Total(s) == 0.0 {
        forall i | 0 <= i < |s| ensures s[i] == 0.0 {
          if i < |s| - 1 {
            assert s[i] == init[i];
          }
        }
      }
    }
  }

  /** The total of a list whose every element is `c` is `|s| * c`. */
  lemma {:induction false} TotalOfConstant(s: seq<real>, c: real)
    requires forall i :: 0 <= i < |s| ==> s[i] == c
    ensures Total(s) == (|s| as real) * c
  {
    if s != [] {
      TotalOfConstant(s[..|s| - 1], c);
    }
  }

  lemma ProductCommutes(a: real, b: real)
    ensures Product(a, b) == Product(b, a)
  {
  }

  lemma ProductWithZero(a: real, b: real)
    requires a == 0.0
    ensures Product(a, b) == 0.0
  {
    calc { Product(a, b); == a * b; == 0.0 * b; == 0.0; }
  }

  lemma SquarePositive(x: real)
    requires x != 0.0
    ensures Square(x) > 0.0
  {
    if x > 0.0 {
      calc { Square(x); == x * x; > 0.0 * x; == 0.0; }
    } else {
      var y := -x;
      calc { Square(x); == x * x; == y * y; > 0.0 * y; == 0.0; }
    }
  }

  /** A square is never negative, and it is zero only for zero. */
  lemma SquareFacts(x: real)
    ensures Square(x) >= 0.0
    ensures Square(x) == 0.0 <==> x == 0.0
  {
    if x != 0.0 {
      SquarePositive(x);
    }
  }

  lemma RatioOfEqual(a: real, b: real)
    requires b > 0.0 && a == b
    ensures a / b == 1.0
  {
  }

  lemma RatioTimesDenominator(a: real, b: real)
    requires a > 0.0 && b > 0.0
    ensures a / b > 0.0
    ensures b * (a / b) == a
  {
  }

  lemma ScaleByEqual(a: real, b: real, c: real)
    requires b == c
    ensures a * b == a * c
  {
  }

  /** Dropping the first price drops the first log return. */
  lemma LogReturnsOfTail(ln: real -> real, prices: seq<real>)
    requires |prices| >= 2 && AllPositive(prices)
    ensures LogReturns(ln, prices)[1..] == LogReturns(ln, prices[1..])
  {
    var r := LogReturns(ln, prices);
    var tail := prices[1..];
    forall k | 0 <= k < |r| - 1 ensures r[1..][k] == LogReturns(ln, tail)[k] {
      assert tail[k + 1] == prices[k + 2] && tail[k] == prices[k + 1];
    }
  }

  lemma SquaresNonNegative(s: seq<real>)
    ensures forall i :: 0 <= i < |Squares(s)| ==> Squares(s)[i] >= 0.0
    ensures Total(Squares(s)) >= 0.0
  {
    forall i | 0 <= i < |s| ensures Squares(s)[i] >= 0.0 {
      SquareFacts(s[i]);
    }
    TotalOfNonNegatives(Squares(s));
  }

  /** The variance about any point is non-negative, and it is zero exactly
      when every element equals that point. */
  lemma VarianceAboutZeroIff(s: seq<real>, c: real)
    requires |s| > 0
    ensures VarianceAbout(s, c) >= 0.0
    ensures VarianceAbout(s, c) == 0.0 <==> forall i :: 0 <= i < |s| ==> s[i] == c
  {
    var sq := Squares(Centered(s, c));
    SquaresNonNegative(Centered(s, c));
    TotalOfNonNegatives(sq);
    forall i | 0 <= i < |s| ensures (sq[i] == 0.0) == (s[i] == c) {
      SquareFacts(s[i] - c);
    }
  }

  /** Dividing the drift back by 250 gives exactly the arithmetic mean. */
  lemma DriftIsAnnualisedMean(logReturns: seq<real>)
    requires |logReturns| > 0
    ensures Drift(logReturns) == TradingDays * Mean(logReturns)
    ensures Drift(logReturns) / TradingDays == Mean(logReturns)
  {
  }

  /** A list whose every element is `c` has mean `c` and drift `250 * c`. */
  lemma MeanOfConstant(s: seq<real>, c: real)
    requires |s| > 0
    requires forall i :: 0 <= i < |s| ==> s[i] == c
    ensures Mean(s) == c
    ensures Drift(s) == TradingDays * c
  {
    TotalOfConstant(s, c);
    var n := |s| as real;
    assert Total(s) / n == c by {
      assert Total(s) == n * c;
    }
    DriftIsAnnualisedMean(s);
  }

  /** Volatility is never negative, and it is zero exactly when all returns
      are equal. */
  lemma VolatilityZeroIffConstantReturns(logReturns: seq<real>)
    requires |logReturns| > 0
    ensures Volatility(logReturns) >= 0.0
    ensures Volatility(logReturns) == 0.0 <==> AllEqual(logReturns)
  {
    var m := Drift(logReturns) / TradingDays;
    DriftIsAnnualisedMean(logReturns);
    VarianceAboutZeroIff(logReturns, m);
    if AllEqual(logReturns) {
      MeanOfConstant(logReturns, logReturns[0]);
    }
  }

  /** A stock whose price never moves has zero volatility, and drift
      `250 * ln(1)`, hence zero drift when `ln(1) = 0`. */
  lemma ConstantPricesHaveZeroStatistics(ln: real -> real, prices: seq<real>)
    requires |prices| >= 2 && AllPositive(prices)
    requires forall i :: 0 <= i < |prices| ==> prices[i] == prices[0]
    ensures |LogReturns(ln, prices)| > 0
    ensures Volatility(LogReturns(ln, prices)) == 0.0
    ensures Drift(LogReturns(ln, prices)) == TradingDays * ln(1.0)
    ensures ln(1.0) == 0.0 ==> Drift(LogReturns(ln, prices)) == 0.0
  {
    var r := LogReturns(ln, prices);
    assert |r| == |prices| - 1;
    forall i | 0 <= i < |r| ensures r[i] == ln(1.0) {
      RatioOfEqual(prices[i + 1], prices[i]);
    }
    MeanOfConstant(r, ln(1.0));
    VolatilityZeroIffConstantReturns(r);
  }

  /** Exponentiating the log returns cumulatively from the first price gives
      the price series back, for any `exp` that inverts `ln` on positive reals. */
  lemma {:induction false} LogReturnsRoundTrip(ln: real -> real, exp: real -> real, prices: seq<real>)
    requires |prices| > 0 && AllPositive(prices)
    requires forall x :: x > 0.0 ==> exp(ln(x)) == x
    ensures Accumulate(exp, prices[0], LogReturns(ln, prices)) == prices
  {
    if |prices| >= 2 {
      var r := LogReturns(ln, prices);
      var tail := prices[1..];
      assert |r| == |prices| - 1;
      LogReturnsOfTail(ln, prices);
      LogReturnsRoundTrip(ln, exp, tail);
      var ratio := prices[1] / prices[0];
      RatioTimesDenominator(prices[1], prices[0]);
      assert exp(r[0]) == ratio by {
        assert r[0] == ln(ratio);
      }
      assert NextPrice(exp, prices[0], r[0]) == prices[1] by {
        ScaleByEqual(prices[0], exp(r[0]), ratio);
      }
      calc {
        Accumulate(exp, prices[0], r);
        [prices[0]] + Accumulate(exp, NextPrice(exp, prices[0], r[0]), r[1..]);
        [prices[0]] + Accumulate(exp, tail[0], LogReturns(ln, tail));
        [prices[0]] + tail;
        prices;
      }
    }
  }
}
