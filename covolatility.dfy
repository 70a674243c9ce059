/** Construction of the covolatility matrix: volatilities on the diagonal,
    and off the diagonal the sum (not the mean) of products of deviations of
    two stocks' log returns from their per-step drifts. The per-step drift
    divides a stock's drift by the length of stock 0's return series, not by
    250. The matrix is an N x N array filled in place. */
module CovolatilityMatrixCalculator {
  import opened GatherDriftsAndVolatilities

  // ---------------------------------------------------------------------
  // Specification functions
  // ---------------------------------------------------------------------

  /** One product per entry of `x`: `(x[t] - hx) * (y[t] - hy)`. */
  function ProductsOfDeviations(x: seq<real>, y: seq<real>, hx: real, hy: real): seq<real>
    requires |x| <= |y|
  {
    seq(|x|, t requires 0 <= t < |x| => Product(x[t] - hx, y[t] - hy))
  }

  /** What a covolatility of stocks `row` and `col` needs from its inputs:
      both stocks exist, stock 0's series (the divisor) is non-empty, and the
      column stock has at least as many returns as the row stock. */
  predicate Pairable(stats: seq<AssetStatistics>, logReturns: seq<seq<real>>, row: nat, col: nat) {
    row < |stats| && col < |stats| && row < |logReturns| && col < |logReturns| &&
    |logReturns[0]| > 0 && |logReturns[row]| <= |logReturns[col]|
  }

  /** A stock's drift divided by the length of stock 0's return series. */
  function PerStepDrift(stats: seq<AssetStatistics>, logReturns: seq<seq<real>>, i: nat): real
    requires i < |stats| && |logReturns| > 0 && |logReturns[0]| > 0
  {
    stats[i].drift / (|logReturns[0]| as real)
  }

  /** `Σ_t (x_row[t] - h_row) * (x_col[t] - h_col)`, summed over the row stock's series. */
  function Covolatility(stats: seq<AssetStatistics>, logReturns: seq<seq<real>>, row: nat, col: nat): real
    requires Pairable(stats, logReturns, row, col)
  {
    Total(ProductsOfDeviations(logReturns[row], logReturns[col],
      PerStepDrift(stats, logReturns, row), PerStepDrift(stats, logReturns, col)))
  }

  /** What building an `n x n` matrix needs: statistics for every stock and,
      as soon as there is an off-diagonal entry, every pair `r < c` pairable. */
  predicate Estimable(n: nat, stats: seq<AssetStatistics>, logReturns: seq<seq<real>>) {
    n <= |stats| &&
    (n >= 2 ==> n <= |logReturns| && |logReturns[0]| > 0) &&
    (forall r, c :: 0 <= r < c < n ==> r < |logReturns| && c < |logReturns| && |logReturns[r]| <= |logReturns[c]|)
  }

  /** The off-diagonal value at `(i, j)`: computed for the upper-triangle
      position and mirrored to the lower one. */
  function OffDiagonal(n: nat, stats: seq<AssetStatistics>, logReturns: seq<seq<real>>, i: nat, j: nat): real
    requires Estimable(n, stats, logReturns) && i < n && j < n && i != j
  {
    if i < j then Covolatility(stats, logReturns, i, j) else Covolatility(stats, logReturns, j, i)
  }

  /** The entry at `(i, j)` of the finished matrix. */
  function Entry(n: nat, stats: seq<AssetStatistics>, logReturns: seq<seq<real>>, i: nat, j: nat): real
    requires Estimable(n, stats, logReturns) && i < n && j < n
  {
    if i == j then stats[i].volatility else OffDiagonal(n, stats, logReturns, i, j)
  }

  // ---------------------------------------------------------------------
  // The source's operations
  // ---------------------------------------------------------------------

  /** An N x N matrix, N the number of price series, with the volatilities on
      the diagonal and mirrored covolatilities elsewhere. The prices are used
      only for their count. */
  method GenerateCovolatilityMatrix(dailyPricesOfStocks: seq<seq<real>>,
      driftsAndVolatilities: seq<AssetStatistics>, logReturnsOfStocks: seq<seq<real>>)
    returns (covolatilityMatrix: array2<real>)
    requires Estimable(|dailyPricesOfStocks|, driftsAndVolatilities, logReturnsOfStocks)
    ensures fresh(covolatilityMatrix)
    ensures covolatilityMatrix.Length0 == |dailyPricesOfStocks| && covolatilityMatrix.Length1 == |dailyPricesOfStocks|
    ensures forall i, j :: 0 <= i < |dailyPricesOfStocks| && 0 <= j < |dailyPricesOfStocks| ==>
      covolatilityMatrix[i, j] == Entry(|dailyPricesOfStocks|, driftsAndVolatilities, logReturnsOfStocks, i, j)
    ensures forall i, j :: 0 <= i < |dailyPricesOfStocks| && 0 <= j < |dailyPricesOfStocks| ==>
      covolatilityMatrix[i, j] == covolatilityMatrix[j, i]
  {
    var n := |dailyPricesOfStocks|;
    covolatilityMatrix := ConstructEmptyCovolatilityMatrix(n);
    PopulateCovolatilityMatrixDiagonal(covolatilityMatrix, driftsAndVolatilities);
    PopulateCovolatilityMatrixNonDiagonal(covolatilityMatrix, driftsAndVolatilities, logReturnsOfStocks);
  }

  /** A fresh `size x size` matrix of zeros. */
  method ConstructEmptyCovolatilityMatrix(size: nat) returns (covolatilityMatrix: array2<real>)
    ensures fresh(covolatilityMatrix)
    ensures covolatilityMatrix.Length0 == size && covolatilityMatrix.Length1 == size
    ensures forall i, j :: 0 <= i < size && 0 <= j < size ==> covolatilityMatrix[i, j] == 0.0
  {
    covolatilityMatrix := new real[size, size];
    for i := 0 to size
      invariant forall r, c :: 0 <= r < i && 0 <= c < size ==> covolatilityMatrix[r, c] == 0.0
    {
      for j := 0 to size
        invariant forall r, c :: 0 <= r < i && 0 <= c < size ==> covolatilityMatrix[r, c] == 0.0
        invariant forall c :: 0 <= c < j ==> covolatilityMatrix[i, c] == 0.0
      {
        covolatilityMatrix[i, j] := 0.0;
      }
    }
  }

  /** Overwrites entry `(row, row)` with stock `row`'s volatility, for every
      row, and leaves every other entry as it was. */
  method PopulateCovolatilityMatrixDiagonal(covolatilityMatrix: array2<real>,
      driftsAndVolatilities: seq<AssetStatistics>)
    requires covolatilityMatrix.Length0 <= covolatilityMatrix.Length1
    requires covolatilityMatrix.Length0 <= |driftsAndVolatilities|
    modifies covolatilityMatrix
    ensures forall i, j :: 0 <= i < covolatilityMatrix.Length0 && 0 <= j < covolatilityMatrix.Length1 ==>
      covolatilityMatrix[i, j] ==
        if i == j then driftsAndVolatilities[i].volatility else old(covolatilityMatrix[i, j])
  {
    for row := 0 to covolatilityMatrix.Length0
      invariant forall i, j :: 0 <= i < covolatilityMatrix.Length0 && 0 <= j < covolatilityMatrix.Length1 ==>
        covolatilityMatrix[i, j] ==
          if i == j && i < row then driftsAndVolatilities[i].volatility else old(covolatilityMatrix[i, j])
    {
      var volatilityOfRowthStock := driftsAndVolatilities[row].volatility;
      covolatilityMatrix[row, row] := volatilityOfRowthStock;
    }
  }

  /** For every `row < col` within the first `n = Length0` columns, computes
      the covolatility once and writes it to `(row, col)` and `(col, row)`.
      The diagonal is never written: the column starts at `row + 1`. */
  method PopulateCovolatilityMatrixNonDiagonal(covolatilityMatrix: array2<real>,
      driftsAndVolatilities: seq<AssetStatistics>, logReturnsOfStocks: seq<seq<real>>)
    requires covolatilityMatrix.Length0 <= covolatilityMatrix.Length1
    requires Estimable(covolatilityMatrix.Length0, driftsAndVolatilities, logReturnsOfStocks)
    modifies covolatilityMatrix
    ensures forall i, j :: 0 <= i < covolatilityMatrix.Length0 && 0 <= j < covolatilityMatrix.Length1 ==>
      covolatilityMatrix[i, j] ==
        if i != j && j < covolatilityMatrix.Length0
        then OffDiagonal(covolatilityMatrix.Length0, driftsAndVolatilities, logReturnsOfStocks, i, j)
        else old(covolatilityMatrix[i, j])
  {
    var n := covolatilityMatrix.Length0;
    for row := 0 to n
      invariant forall i, j :: 0 <= i < n && 0 <= j < covolatilityMatrix.Length1 ==>
        covolatilityMatrix[i, j] ==
          if i != j && j < n && (i < row || j < row)
          then OffDiagonal(n, driftsAndVolatilities, logReturnsOfStocks, i, j)
          else old(covolatilityMatrix[i, j])
    {
      for collumn := row + 1 to n
        invariant forall i, j :: 0 <= i < n && 0 <= j < covolatilityMatrix.Length1 ==>
          covolatilityMatrix[i, j] ==
            if i != j && j < n && (i < row || j < row || (i == row && j < collumn) || (j == row && i < collumn))
            then OffDiagonal(n, driftsAndVolatilities, logReturnsOfStocks, i, j)
            else old(covolatilityMatrix[i, j])
      {
        var currentCovolatility := ComputeCovolatility(row, collumn, driftsAndVolatilities, logReturnsOfStocks);
        covolatilityMatrix[row, collumn] := currentCovolatility;
        covolatilityMatrix[collumn, row] := currentCovolatility;
      }
    }
  }

  /** The covolatility of stocks `row` and `collumn`: the sum of the products
      of their deviations from drift / L, L the length of stock 0's series. */
  method ComputeCovolatility(row: nat, collumn: nat,
      driftsAndVolatilities: seq<AssetStatistics>, logReturnsOfStocks: seq<seq<real>>)
    returns (covolatility: real)
    requires Pairable(driftsAndVolatilities, logReturnsOfStocks, row, collumn)
    ensures covolatility == Covolatility(driftsAndVolatilities, logReturnsOfStocks, row, collumn)
  {
    var rowDriftHn := driftsAndVolatilities[row].drift / (|logReturnsOfStocks[0]| as real);
    var collumnDriftHn := driftsAndVolatilities[collumn].drift / (|logReturnsOfStocks[0]| as real);
    var productsOfDeviations :=
      ComputeProductsOfDeviations(logReturnsOfStocks, row, collumn, rowDriftHn, collumnDriftHn);
    covolatility := Sum(productsOfDeviations);
  }

  /** One product of deviations per entry of the row stock's series. */
  method ComputeProductsOfDeviations(logReturnsOfStocks: seq<seq<real>>, row: nat, collumn: nat,
      rowDrift: real, collumnDrift: real)
    returns (productsOfDeviations: seq<real>)
    requires row < |logReturnsOfStocks| && collumn < |logReturnsOfStocks|
    requires |logReturnsOfStocks[row]| <= |logReturnsOfStocks[collumn]|
    ensures |productsOfDeviations| == |logReturnsOfStocks[row]|
    ensures forall t :: 0 <= t < |productsOfDeviations| ==>
      productsOfDeviations[t] ==
        Product(logReturnsOfStocks[row][t] - rowDrift, logReturnsOfStocks[collumn][t] - collumnDrift)
    ensures productsOfDeviations ==
      ProductsOfDeviations(logReturnsOfStocks[row], logReturnsOfStocks[collumn], rowDrift, collumnDrift)
  {
    var logReturnsOfRowStock := logReturnsOfStocks[row];
    var logReturnsOfCollumnStock := logReturnsOfStocks[collumn];
    productsOfDeviations := [];
    for i := 0 to |logReturnsOfRowStock|
      invariant |productsOfDeviations| == i
      invariant forall t :: 0 <= t < i ==>
        productsOfDeviations[t] == Product(logReturnsOfRowStock[t] - rowDrift, logReturnsOfCollumnStock[t] - collumnDrift)
    {
      var productOfDeviations := Product(logReturnsOfRowStock[i] - rowDrift, logReturnsOfCollumnStock[i] - collumnDrift);
      productsOfDeviations := productsOfDeviations + [productOfDeviations];
    }
  }

  // ---------------------------------------------------------------------
  // Properties of the matrix
  // ---------------------------------------------------------------------

  /** The value mirrored into the lower triangle is also what the source
      would compute from the lower-triangle position, when both stocks have
      series of the same length. */
  lemma CovolatilityIsSymmetric(stats: seq<AssetStatistics>, logReturns: seq<seq<real>>, r: nat, c: nat)
    requires Pairable(stats, logReturns, r, c) && |logReturns[r]| == |logReturns[c]|
    ensures Pairable(stats, logReturns, c, r)
    ensures Covolatility(stats, logReturns, r, c) == Covolatility(stats, logReturns, c, r)
  {
    var hr := PerStepDrift(stats, logReturns, r);
    var hc := PerStepDrift(stats, logReturns, c);
    var p := ProductsOfDeviations(logReturns[r], logReturns[c], hr, hc);
    var q := ProductsOfDeviations(logReturns[c], logReturns[r], hc, hr);
    forall t | 0 <= t < |p| ensures p[t] == q[t] {
      ProductCommutes(logReturns[r][t] - hr, logReturns[c][t] - hc);
    }
    assert p == q;
  }

  /** A stock whose returns are all zero and whose drift is zero has
      covolatility zero with every other stock. */
  lemma ZeroStockHasZeroCovolatility(n: nat, stats: seq<AssetStatistics>, logReturns: seq<seq<real>>,
      z: nat, other: nat)
    requires Estimable(n, stats, logReturns) && z < n && other < n && z != other
    requires stats[z].drift == 0.0
    requires forall t :: 0 <= t < |logReturns[z]| ==> logReturns[z][t] == 0.0
    ensures Entry(n, stats, logReturns, z, other) == 0.0
    ensures Entry(n, stats, logReturns, other, z) == 0.0
  {
    var r, c := if z < other then z else other, if z < other then other else z;
    var hr := PerStepDrift(stats, logReturns, r);
    var hc := PerStepDrift(stats, logReturns, c);
    var p := ProductsOfDeviations(logReturns[r], logReturns[c], hr, hc);
    assert PerStepDrift(stats, logReturns, z) == 0.0;
    forall t | 0 <= t < |p| ensures p[t] == 0.0 {
      if z == r {
        ProductWithZero(logReturns[r][t] - hr, logReturns[c][t] - hc);
      } else {
        ProductCommutes(logReturns[r][t] - hr, logReturns[c][t] - hc);
        ProductWithZero(logReturns[c][t] - hc, logReturns[r][t] - hr);
      }
    }
    TotalOfConstant(p, 0.0);
  }

  /** The two conventions agree at L = 250: if two stocks have the same
      returns and statistics and every series has 250 returns, the summed
      off-diagonal value equals the diagonal volatility. */
  lemma TwinStocksAtTwoHundredFiftyReturns(stats: seq<AssetStatistics>, logReturns: seq<seq<real>>, r: nat, c: nat)
    requires Pairable(stats, logReturns, r, c)
    requires |logReturns[0]| == 250 && logReturns[r] == logReturns[c]
    requires stats[r] == stats[c]
    requires |logReturns[r]| == 250 && stats[r].drift == Drift(logReturns[r])
    requires stats[r].volatility == Volatility(logReturns[r])
    ensures Covolatility(stats, logReturns, r, c) == stats[r].volatility
  {
    var x := logReturns[r];
    var h := stats[r].drift / TradingDays;
    assert PerStepDrift(stats, logReturns, r) == h && PerStepDrift(stats, logReturns, c) == h;
    var p := ProductsOfDeviations(x, x, h, h);
    var s := Squares(Centered(x, h));
    forall t | 0 <= t < |x| ensures p[t] == s[t] {
      assert p[t] == Product(x[t] - h, x[t] - h);
      assert s[t] == Square(x[t] - h);
    }
    assert p == s;
    assert Volatility(x) == TradingDays * (Total(s) / TradingDays);
  }
}
