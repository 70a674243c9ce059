# Multi-asset stock price simulation: estimation and Euler-Maruyama paths

This project models, in Dafny, the numerical core of a small Java finance
program. The program reads the daily closing prices of several stocks. From them it
estimates each stock's annualised drift and volatility from its log returns. It
builds a covolatility matrix from the same returns, then packs drifts,
volatilities and a square root of that matrix into a stochastic
differential equation (SDE) model. Finally it simulates price paths with the
Euler-Maruyama scheme.

Doubles are modelled as `real`. The model is split into four modules, one per
Java class:

- `GatherDriftsAndVolatilities` (`statistics.dfy`)
  - Computes log returns, sums, drift, variance and volatility.
  - Every loop of the class is a method proved against a specification
    function.
  - The `[drift, volatility]` two-element list is the datatype
    `AssetStatistics`.
- `CovolatilityMatrixCalculator` (`covolatility.dfy`)
  - The matrix is a fresh `array2<real>` of zeros.
  - Its diagonal and then its mirrored upper triangle are overwritten in
    place, as the Java code does with `set`.
  - Every entry of the finished matrix is specified by the function `Entry`.
- `SDESystem` (`sde_system.dfy`)
  - The model object is a class. Its constructor splits the statistics into
    a drift list and a volatility list.
  - The copy helpers between list-of-lists matrices (`seq<seq<real>>`) and
    arrays (`array2<real>`, standing for both `double[][]` and the matrix
    library's `Matrix`) are methods.
  - Two round-trip methods state what a copy there and back gives.
- `NumericalSDESolution` (`simulation.dfy`)
  - The simulator is a class whose constructor grows the field `dailyPrices`
    one step at a time.
  - A single step is specified entrywise by `Step`. The lemma
    `StepFromVectorOperations` proves that the composition of vector
    helpers the Java code uses is that step.
  - The whole path is specified twice: recursively (`SimulatedPrices`) and
    column by column (`IsSimulatedPath`). `SimulatedPathIff` proves the two
    agree.

Abstractions:

- `Math.log` is the function parameter `ln`.
- `Math.sqrt(250 * u)` uses the function parameter `sqrt`.
- `Random.nextGaussian` is a stream `gaussianSampler: nat -> real` together
  with a counter `drawsTaken` of the values already used.
- The matrix square root, computed in the Java constructor by an
  eigen-decomposition, is a constructor argument of `SDESystem`.

The following quirks of the code are kept literally:

- The vector named "square volatilities" is the drift vector fetched a second
  time. A step therefore adds `1.5 * drift` (lemma `StepWithoutNoise`).
- A covolatility is a sum, not a mean, of products of deviations.
- The per-step drift used in a covolatility is divided by the length of
  stock 0's return series, not by 250. At 250 returns a stock's covolatility
  with an identical twin equals its volatility (lemma
  `TwinStocksAtTwoHundredFiftyReturns`).
- The sum runs over the row stock's series.
- The vector helpers work to the length of their left operand.
- Copying a list-of-lists into an array sizes the columns by row 0 and drops
  longer rows' extra entries.

The getters `GetCovolatilityMatrixSqrt` and `GetDailyPrices` return a field
and carry no contract of their own. `GetDriftsOfStocks` and
`GetVolatilitiesOfStocks` are stated against the statistics the object was
built from.

## Model

| member | source | states |
|---|---|---|
| GatherDriftsAndVolatilities.GenerateLogReturnsOfStock | GatherDriftsAndVolatilities.java:30-41 | n prices give n-1 returns (none for an empty list); return i is `ln(p[i+1] / p[i])` |
| GatherDriftsAndVolatilities.GenerateLogReturnsOfStocks | GatherDriftsAndVolatilities.java:102-115 | one return series per stock, in order; series i is the log returns of stock i's prices alone |
| GatherDriftsAndVolatilities.Sum | GatherDriftsAndVolatilities.java:56-65 | the result is the left-to-right total of the list; an empty list sums to 0 |
| GatherDriftsAndVolatilities.ComputeDriftOfStock | GatherDriftsAndVolatilities.java:43-47 | the drift is 250 * total / length, and drift / 250 is exactly the arithmetic mean |
| GatherDriftsAndVolatilities.ComputeVolatilityOfStock | GatherDriftsAndVolatilities.java:49-54 | 250 times the variance about drift / 250; never negative; equals the volatility of the series when given its own drift |
| GatherDriftsAndVolatilities.Variance | GatherDriftsAndVolatilities.java:67-76 | the mean squared deviation about the given point; never negative |
| GatherDriftsAndVolatilities.Center | GatherDriftsAndVolatilities.java:78-88 | same length; entry i is `data[i] - mean` |
| GatherDriftsAndVolatilities.SquareElements | GatherDriftsAndVolatilities.java:90-99 | same length; entry i is `data[i]` squared |
| GatherDriftsAndVolatilities.GatherStatisticsForStocks | GatherDriftsAndVolatilities.java:8-28 | one (drift, volatility) pair per stock, in order, from that stock's returns; the up-sample factor does not appear in the result |
| GatherDriftsAndVolatilities.Accumulate | GatherDriftsAndVolatilities.java:34-38 | the inverse of taking log returns: a first price and n returns rebuild n+1 prices starting at that price |
| GatherDriftsAndVolatilities.TotalOfNonNegatives | GatherDriftsAndVolatilities.java:56-65 | a total of non-negative terms is non-negative, and zero exactly when every term is zero |
| GatherDriftsAndVolatilities.TotalOfConstant | GatherDriftsAndVolatilities.java:56-65 | a list of n copies of c totals n * c |
| GatherDriftsAndVolatilities.SquareFacts | GatherDriftsAndVolatilities.java:95 | a square is non-negative and zero only for zero |
| GatherDriftsAndVolatilities.LogReturnsOfTail | GatherDriftsAndVolatilities.java:34-38 | dropping the first price drops exactly the first return |
| GatherDriftsAndVolatilities.SquaresNonNegative | GatherDriftsAndVolatilities.java:90-99 | every squared element, and their total, is non-negative |
| GatherDriftsAndVolatilities.VarianceAboutZeroIff | GatherDriftsAndVolatilities.java:67-76 | the variance about c is non-negative, and zero exactly when every element equals c |
| GatherDriftsAndVolatilities.DriftIsAnnualisedMean | GatherDriftsAndVolatilities.java:45 | drift = 250 * mean, so drift / 250 is the mean |
| GatherDriftsAndVolatilities.MeanOfConstant | GatherDriftsAndVolatilities.java:45 | returns all equal to c have mean c and drift 250 * c |
| GatherDriftsAndVolatilities.VolatilityZeroIffConstantReturns | GatherDriftsAndVolatilities.java:49-54 | volatility is non-negative, and zero exactly when all returns are equal |
| GatherDriftsAndVolatilities.ConstantPricesHaveZeroStatistics | GatherDriftsAndVolatilities.java:43-54 | constant prices give zero volatility, and zero drift when ln(1) = 0 |
| GatherDriftsAndVolatilities.LogReturnsRoundTrip | GatherDriftsAndVolatilities.java:30-41 | with exp inverting ln on positive reals, accumulating the log returns from the first price gives back the price series |
| CovolatilityMatrixCalculator.GenerateCovolatilityMatrix | CovolatilityMatrixCalculator.java:8-18 | a fresh N x N matrix (N the number of price series; the prices are used only for their count); volatilities on the diagonal, covolatilities off it; symmetric |
| CovolatilityMatrixCalculator.ConstructEmptyCovolatilityMatrix | CovolatilityMatrixCalculator.java:20-37 | a fresh size x size matrix of zeros |
| CovolatilityMatrixCalculator.PopulateCovolatilityMatrixDiagonal | CovolatilityMatrixCalculator.java:39-48 | entry (i, i) becomes stock i's volatility; every other entry is unchanged |
| CovolatilityMatrixCalculator.PopulateCovolatilityMatrixNonDiagonal | CovolatilityMatrixCalculator.java:50-63 | every off-diagonal entry within the square becomes the covolatility of the lower and higher index, in both triangles; the diagonal and anything beyond is unchanged |
| CovolatilityMatrixCalculator.ComputeCovolatility | CovolatilityMatrixCalculator.java:65-77 | the sum over the row stock's returns of the products of deviations from drift / L, L the length of stock 0's series |
| CovolatilityMatrixCalculator.ComputeProductsOfDeviations | CovolatilityMatrixCalculator.java:79-95 | one product per entry of the row stock's series: `(x_row[t] - h_row) * (x_col[t] - h_col)` |
| CovolatilityMatrixCalculator.CovolatilityIsSymmetric | CovolatilityMatrixCalculator.java:53-62 | for series of equal length, the covolatility of (r, c) equals that of (c, r), so mirroring loses nothing |
| CovolatilityMatrixCalculator.ZeroStockHasZeroCovolatility | CovolatilityMatrixCalculator.java:87-93 | a stock with all-zero returns and zero drift has covolatility 0 with every other stock, on both sides of the diagonal |
| CovolatilityMatrixCalculator.TwinStocksAtTwoHundredFiftyReturns | CovolatilityMatrixCalculator.java:68-74 | with 250 returns, two stocks with identical returns and statistics have covolatility equal to their volatility |
| SDESystem.SDESystem.constructor | SDESystem.java:16-29 | drifts and volatilities are the components of the given pairs, one per stock, in order; the matrix is kept by reference and its square root stored once |
| SDESystem.SDESystem.GetDriftsOfStocks | SDESystem.java:113-116 | one drift per stock, the drift of the pair it was built from |
| SDESystem.SDESystem.GetVolatilitiesOfStocks | SDESystem.java:118-121 | one volatility per stock, the volatility of the pair it was built from |
| SDESystem.ConvertToBasicArrayMatrix | SDESystem.java:57-70 | a fresh array with one row per list and as many columns as row 0; entry (r, c) is `list[r][c]` |
| SDESystem.ConvertToBasicArray | SDESystem.java:72-82 | a fresh array holding the same elements in the same order |
| SDESystem.ConvertToArrayListMatrix | SDESystem.java:84-98 | one list per array row, each as long as the column count, entries copied |
| SDESystem.ConvertToArrayList | SDESystem.java:100-111 | row 0 only, one entry per column |
| SDESystem.TruncatedFacts | SDESystem.java:57-70 | cutting rows to row 0's length gives a rectangular matrix, and changes the matrix exactly when it was not rectangular |
| SDESystem.ArrayListMatrixRoundTrip | SDESystem.java:57-98 | list to array and back gives the list cut to row 0's length; a rectangular list comes back unchanged |
| SDESystem.BasicArrayMatrixRoundTrip | SDESystem.java:57-98 | array to list and back gives an array of the same shape and contents |
| NumericalSDESolution.StepFromVectorOperations | NumericalSDESolution.java:73-74 | the composition of vector add, scale, Hadamard product and row-vector product in the order the code applies them equals the entrywise step formula |
| NumericalSDESolution.SimulatedPrices | NumericalSDESolution.java:26-37 | the path after k steps has one row per stock, each of k + 1 prices starting at the stock's first price |
| NumericalSDESolution.SimulatedPricesNext | NumericalSDESolution.java:32-37 | one more step appends to every row one step from the last column, using the next N draws |
| NumericalSDESolution.ExtendSimulatedPath | NumericalSDESolution.java:32-37 | appending the next step's prices to a simulated path of k steps gives a simulated path of k + 1 steps |
| NumericalSDESolution.ShorterSimulatedPath | NumericalSDESolution.java:32-37 | a simulated path of k > 0 steps is a simulated path of k - 1 steps with its last column appended |
| NumericalSDESolution.SimulatedPricesArePaths | NumericalSDESolution.java:26-37 | the recursive path satisfies the column-by-column description |
| NumericalSDESolution.PathsAreSimulatedPrices | NumericalSDESolution.java:26-37 | any path satisfying the column-by-column description is the recursive path |
| NumericalSDESolution.SimulatedPathIff | NumericalSDESolution.java:26-37 | the two descriptions of a simulated path agree, in both directions |
| NumericalSDESolution.EarlierPricesAreKept | NumericalSDESolution.java:40-46 | prices once on a path are never rewritten: the path after k steps is a prefix of every later one |
| NumericalSDESolution.ColumnDotOfZeroColumn | NumericalSDESolution.java:159-173 | a zero column contributes nothing to the row-vector product |
| NumericalSDESolution.StepWithoutNoise | NumericalSDESolution.java:65-74 | with a zero square-root matrix a step is `S + 1.5 d S / (250 u)`: the drift is counted again where squared volatilities are named |
| NumericalSDESolution.ZeroPriceIsAbsorbing | NumericalSDESolution.java:73-74 | a price of zero stays zero after a step |
| NumericalSDESolution.ConstantWithoutDriftOrNoise | NumericalSDESolution.java:32-37 | with zero drifts and a zero square-root matrix every row of the path repeats the first price |
| NumericalSDESolution.VectorAdd | NumericalSDESolution.java:91-101 | as long as the left operand; entry i is `l[i] + r[i]` |
| NumericalSDESolution.ScaleVector | NumericalSDESolution.java:103-113 | same length; entry i is `v[i] * factor` |
| NumericalSDESolution.HadamardProduct | NumericalSDESolution.java:131-141 | as long as the left operand; entry i is `l[i] * r[i]` |
| NumericalSDESolution.RowTimesMatrix | NumericalSDESolution.java:168 | a fresh 1 x columns matrix whose entry j is `Σ_k row[k] * matrix[k, j]`, summed from k = 0 |
| NumericalSDESolution.MatrixVectorProduct | NumericalSDESolution.java:159-173 | one entry per column of row 0; entry j is `Σ_i z[i] * M[i][j]` |
| NumericalSDESolution.ColumnDotOfTruncated | NumericalSDESolution.java:162 | cutting rows to row 0's length leaves every column below that length, and so the product, unchanged |
| NumericalSDESolution.NumericalSDESolution.constructor | NumericalSDESolution.java:17-38 | the prices are the simulated path from the stocks' first observed prices over `size0 * u - 1` steps (no steps when that is not positive), so every row holds `size0 * u` prices when that is at least 1; `N` draws are used per step |
| NumericalSDESolution.NumericalSDESolution.AddToDailyPrices | NumericalSDESolution.java:40-46 | appends `nextValues[i]` to row i for every i below its length; nothing else changes |
| NumericalSDESolution.NumericalSDESolution.SimulateDay | NumericalSDESolution.java:48-59 | the result is one step from every row's price of day `day - 1`, with the next N draws |
| NumericalSDESolution.NumericalSDESolution.EulerMaruyamaIteration | NumericalSDESolution.java:61-77 | the result is the step formula applied to the prices with the next N draws, the drift vector standing in for the squared volatilities |
| NumericalSDESolution.NumericalSDESolution.GenerateNDimensionalGaussianSample | NumericalSDESolution.java:79-89 | the next `dimensionality` values of the stream, in order; the counter advances by that many |

## Left out

- The driver, `ProjectTwoDriver.java`, is not part of this model. It does file reading, console output, writing ten trajectories to a file, and orchestration, all of which is I/O.
- `SDESystem.MatrixSquareRoot` (eigen-decomposition in a matrix library, and `Math.sqrt` of possibly negative eigenvalues) is not modelled. Its result is a constructor argument of `SDESystem`, so nothing is proved about it being a square root.
- `printSDEComponents` is console output.
- `scaleMatrix` and `matrixProduct` are never called. `matrixProduct` only delegates to the matrix library.
- Floating point is not modelled: doubles are reals, with no rounding and no NaN or infinity. Division by a zero length, `log` of a non-positive price and `1.0 / (250 * u)` with `u == 0` become preconditions (non-empty series, positive prices, `Simulable`).
- Java `int` overflow of `250 * u` and of `size0 * u` is not modelled. Both are unbounded integers.
- `Math.log`, `Math.exp` and `Math.sqrt` are function parameters. The round trip assumes exp inverts ln, and one lemma assumes `ln(1) = 0`.
- `Simulable` and the NumericalSDESolution.NumericalSDESolution.constructor assume `sqrt(250 * u) != 0` whenever a step is taken, ruling out a division by zero in the noise term. The real `Math.sqrt(250 * u)` meets this, since taking a step implies `u >= 1`.
- The random generator is a stream of values with no distribution. Nothing is claimed about Gaussianity or independence.
- The Java getters hand out the live lists, so a caller could mutate the model. The model's lists are values, so this aliasing is not captured.
- The matrix library's exceptions on mismatched shapes are not modelled. Where the product or a conversion would throw, the model makes the shape a precondition. This covers `MatrixVectorProduct` requiring one draw per matrix row, and the simulation requiring a square root with one row per stock.
- VectorAdd and HadamardProduct require the right operand to be at least as long as the left one. The Java throws `IndexOutOfBoundsException` when it is shorter; that error path is not modelled.
- ComputeProductsOfDeviations, and through `Pairable` and `Estimable` also ComputeCovolatility, PopulateCovolatilityMatrixNonDiagonal and GenerateCovolatilityMatrix, require the column stock's return series to be at least as long as the row stock's. The Java throws `IndexOutOfBoundsException` when it is shorter; that error path is not modelled.
- PopulateCovolatilityMatrixDiagonal, and through `Estimable` GenerateCovolatilityMatrix, require at least one (drift, volatility) pair per stock. The Java throws `IndexOutOfBoundsException` with fewer pairs; that error path is not modelled.
- NumericalSDESolution.NumericalSDESolution.constructor requires at least one stock and a non-empty price series for every stock. The Java throws `IndexOutOfBoundsException` on an empty stock list or an empty price row; that error path is not modelled.
- `Simulable` requires one drift per stock and a square root whose row 0 has at least one entry per stock. Without these, the vector helpers in the Java step throw `IndexOutOfBoundsException`. The constructor, SimulateDay and EulerMaruyamaIteration require `Simulable` whenever a step is taken, so that error path is not modelled.
- The Java constructor re-evaluates its loop bound `size0 * u` on every iteration. The model computes it once, which gives the same value since neither factor changes.
- The covolatility matrix, a list of equal-length lists updated with `set`, is modelled as a fixed-size array of reals. Its rows are therefore not separately aliasable lists.
