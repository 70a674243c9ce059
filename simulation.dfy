/** Euler-Maruyama simulation of the stock prices. The path of every stock
    starts at its first observed price; each step draws one standard
    Gaussian per stock and appends
      S' = S + ((d + 0.5 d) ⊙ S) / (250 u) + (S / √(250 u)) ⊙ (z · C)
    where d are the drifts (used again where squared volatilities are
    named), C is the covolatility matrix's square root, z the draws, u the
    up-sampling factor and z · C the row vector z times C. The draws come
    from a stream `gaussianSampler` of which the first `drawsTaken` values are
    used up; the square root is the parameter `sqrt`. */
module NumericalSDESolution {
  import opened GatherDriftsAndVolatilities
  import SDESystem

  // ---------------------------------------------------------------------
  // Vectors
  // ---------------------------------------------------------------------

  /** Elementwise sum, as long as the left operand. */
  function Add(l: seq<real>, r: seq<real>): seq<real>
    requires |l| <= |r|
  {
    seq(|l|, i requires 0 <= i < |l| => l[i] + r[i])
  }

  /** Every element times the factor. */
  function Scale(v: seq<real>, factor: real): seq<real> {
    seq(|v|, i requires 0 <= i < |v| => Product(v[i], factor))
  }

  /** Elementwise product, as long as the left operand. */
  function Hadamard(l: seq<real>, r: seq<real>): seq<real>
    requires |l| <= |r|
  {
    seq(|l|, i requires 0 <= i < |l| => Product(l[i], r[i]))
  }

  /** `Σ_{i<k} z[i] * m[i][j]`, accumulated from `i = 0` upwards. */
  function ColumnDot(z: seq<real>, m: seq<seq<real>>, j: nat, k: nat): real
    requires k <= |z| && k <= |m|
    requires forall i :: 0 <= i < k ==> j < |m[i]|
  {
    if k == 0 then 0.0 else ColumnDot(z, m, j, k - 1) + Product(z[k - 1], m[k - 1][j])
  }

  /** The row vector `z` times `m`: one entry per column of row 0. */
  function RowTimes(z: seq<real>, m: seq<seq<real>>): seq<real>
    requires SDESystem.WideEnough(m) && |z| == |m|
  {
    seq(|m[0]|, j requires 0 <= j < |m[0]| => ColumnDot(z, m, j, |z|))
  }

  /** `n` consecutive values of a stream, starting at index `from`. */
  function Sample(gaussianSampler: nat -> real, from: nat, n: nat): seq<real> {
    seq(n, k requires 0 <= k < n => gaussianSampler(from + k))
  }

  // ---------------------------------------------------------------------
  // One step and the whole path
  // ---------------------------------------------------------------------

  /** Steps per year, `250 * u`, as a real. */
  function StepsPerYear(upSampleFactor: int): real {
    (250 * upSampleFactor) as real
  }

  /** What a step over `n` stocks needs: one drift per stock and a square
      root with one row per stock, every row as long as row 0 and row 0 at
      least `n` long; and the up-sampling factor and its root nonzero. */
  predicate Simulable(n: nat, drifts: seq<real>, covolatilityMatrixSqrt: seq<seq<real>>,
      upSampleFactor: int, sqrt: real -> real) {
    |drifts| == n && |covolatilityMatrixSqrt| == n &&
    SDESystem.WideEnough(covolatilityMatrixSqrt) && |covolatilityMatrixSqrt[0]| >= n &&
    upSampleFactor != 0 && sqrt(StepsPerYear(upSampleFactor)) != 0.0
  }

  /** Stock `i`'s price one step after `s`, with Gaussian draws `z`:
      `s[i] + ((d[i] + 0.5 d[i]) s[i]) / (250 u) + (s[i] / √(250 u)) (z · C)[i]`. */
  function StepAt(s: seq<real>, drifts: seq<real>, covolatilityMatrixSqrt: seq<seq<real>>,
      upSampleFactor: int, sqrt: real -> real, z: seq<real>, i: nat): real
    requires Simulable(|s|, drifts, covolatilityMatrixSqrt, upSampleFactor, sqrt) && |z| == |s| && i < |s|
  {
    var squareVolatilities := drifts;
    s[i]
    + (drifts[i] + squareVolatilities[i] * 0.5) * s[i] * (1.0 / StepsPerYear(upSampleFactor))
    + s[i] * (1.0 / sqrt(StepsPerYear(upSampleFactor))) * ColumnDot(z, covolatilityMatrixSqrt, i, |z|)
  }

  /** The prices one step after `s`, with Gaussian draws `z`. */
  function Step(s: seq<real>, drifts: seq<real>, covolatilityMatrixSqrt: seq<seq<real>>,
      upSampleFactor: int, sqrt: real -> real, z: seq<real>): seq<real>
    requires Simulable(|s|, drifts, covolatilityMatrixSqrt, upSampleFactor, sqrt) && |z| == |s|
  {
    seq(|s|, i requires 0 <= i < |s| => StepAt(s, drifts, covolatilityMatrixSqrt, upSampleFactor, sqrt, z, i))
  }

  /** The step assembled from the vector operations, in the order the
      simulator applies them, is the entrywise formula. */
  lemma StepFromVectorOperations(s: seq<real>, drifts: seq<real>, covolatilityMatrixSqrt: seq<seq<real>>,
      upSampleFactor: int, sqrt: real -> real, z: seq<real>)
    requires Simulable(|s|, drifts, covolatilityMatrixSqrt, upSampleFactor, sqrt) && |z| == |s|
    ensures Add(Add(s, Scale(Hadamard(Add(drifts, Scale(drifts, 0.5)), s), 1.0 / StepsPerYear(upSampleFactor))),
      Hadamard(Scale(s, 1.0 / sqrt(StepsPerYear(upSampleFactor))), RowTimes(z, covolatilityMatrixSqrt)))
      == Step(s, drifts, covolatilityMatrixSqrt, upSampleFactor, sqrt, z)
  {
    var composed := Add(Add(s, Scale(Hadamard(Add(drifts, Scale(drifts, 0.5)), s), 1.0 / StepsPerYear(upSampleFactor))),
      Hadamard(Scale(s, 1.0 / sqrt(StepsPerYear(upSampleFactor))), RowTimes(z, covolatilityMatrixSqrt)));
    forall i | 0 <= i < |s|
      ensures composed[i] == StepAt(s, drifts, covolatilityMatrixSqrt, upSampleFactor, sqrt, z, i)
    {
      assert RowTimes(z, covolatilityMatrixSqrt)[i] == ColumnDot(z, covolatilityMatrixSqrt, i, |z|);
    }
  }

  /** Entry `k` of every row. */
  function Column(rows: seq<seq<real>>, k: nat): seq<real>
    requires forall i :: 0 <= i < |rows| ==> k < |rows[i]|
  {
    seq(|rows|, i requires 0 <= i < |rows| => rows[i][k])
  }

  /** Row `i` extended by `v[i]`, for every `i < |v|`. */
  function AppendColumn(rows: seq<seq<real>>, v: seq<real>): seq<seq<real>>
    requires |v| <= |rows|
  {
    seq(|rows|, i requires 0 <= i < |rows| => if i < |v| then rows[i] + [v[i]] else rows[i])
  }

  /** The number of steps the constructor's loop makes: `i` runs from 1 while
      `i < size0 * u`. */
  function StepCount(size0: nat, upSampleFactor: int): nat {
    if size0 * upSampleFactor > 1 then size0 * upSampleFactor - 1 else 0
  }

  /** The simulated paths after `k` steps: one row per stock, starting at
      `first`; step `k` uses the draws `(k-1) N .. k N - 1`. */
  function SimulatedPrices(first: seq<real>, drifts: seq<real>, covolatilityMatrixSqrt: seq<seq<real>>,
      upSampleFactor: int, sqrt: real -> real, gaussianSampler: nat -> real, k: nat): (path: seq<seq<real>>)
    requires k > 0 ==> Simulable(|first|, drifts, covolatilityMatrixSqrt, upSampleFactor, sqrt)
    ensures |path| == |first|
    ensures forall i :: 0 <= i < |path| ==> |path[i]| == k + 1 && path[i][0] == first[i]
  {
    if k == 0 then
      seq(|first|, i requires 0 <= i < |first| => [first[i]])
    else
      var previous := SimulatedPrices(first, drifts, covolatilityMatrixSqrt, upSampleFactor, sqrt, gaussianSampler, k - 1);
      AppendColumn(previous,
        Step(Column(previous, k - 1), drifts, covolatilityMatrixSqrt, upSampleFactor, sqrt,
          Sample(gaussianSampler, (k - 1) * |first|, |first|)))
  }

  /** The path after `k + 1` steps is the path after `k` steps with one
      step from its last column appended. */
  lemma SimulatedPricesNext(first: seq<real>, drifts: seq<real>, covolatilityMatrixSqrt: seq<seq<real>>,
      upSampleFactor: int, sqrt: real -> real, gaussianSampler: nat -> real, k: nat)
    requires Simulable(|first|, drifts, covolatilityMatrixSqrt, upSampleFactor, sqrt)
    ensures var previous := SimulatedPrices(first, drifts, covolatilityMatrixSqrt, upSampleFactor, sqrt, gaussianSampler, k);
      SimulatedPrices(first, drifts, covolatilityMatrixSqrt, upSampleFactor, sqrt, gaussianSampler, k + 1) ==
      AppendColumn(previous, Step(Column(previous, k), drifts, covolatilityMatrixSqrt, upSampleFactor, sqrt,
        Sample(gaussianSampler, k * |first|, |first|)))
  {
  }

  /** The same paths described column by column: `path` starts at `first`
      and each of its `k` later columns is one step from the column before,
      taken with the next `|first|` draws. */
  predicate IsSimulatedPath(path: seq<seq<real>>, first: seq<real>, drifts: seq<real>,
      covolatilityMatrixSqrt: seq<seq<real>>, upSampleFactor: int, sqrt: real -> real,
      gaussianSampler: nat -> real, k: nat)
    requires k > 0 ==> Simulable(|first|, drifts, covolatilityMatrixSqrt, upSampleFactor, sqrt)
  {
    |path| == |first| &&
    (forall r :: 0 <= r < |path| ==> |path[r]| == k + 1) &&
    Column(path, 0) == first &&
    forall t :: 1 <= t <= k ==>
      StepTaken(path, drifts, covolatilityMatrixSqrt, upSampleFactor, sqrt, gaussianSampler, t)
  }

  /** Column `t` of `path` is one step from column `t - 1`, taken with the
      draws `(t-1) N .. t N - 1`, N the number of rows. */
  predicate StepTaken(path: seq<seq<real>>, drifts: seq<real>, covolatilityMatrixSqrt: seq<seq<real>>,
      upSampleFactor: int, sqrt: real -> real, gaussianSampler: nat -> real, t: nat)
    requires Simulable(|path|, drifts, covolatilityMatrixSqrt, upSampleFactor, sqrt)
    requires 1 <= t && forall r :: 0 <= r < |path| ==> t < |path[r]|
  {
    Column(path, t) == Step(Column(path, t - 1), drifts, covolatilityMatrixSqrt, upSampleFactor, sqrt,
      Sample(gaussianSampler, (t - 1) * |path|, |path|))
  }

  /** Appending the columns of one more step keeps a path a simulated path. */
  lemma ExtendSimulatedPath(path: seq<seq<real>>, first: seq<real>, drifts: seq<real>,
      covolatilityMatrixSqrt: seq<seq<real>>, upSampleFactor: int, sqrt: real -> real,
      gaussianSampler: nat -> real, k: nat, next: seq<real>)
    requires Simulable(|first|, drifts, covolatilityMatrixSqrt, upSampleFactor, sqrt)
    requires IsSimulatedPath(path, first, drifts, covolatilityMatrixSqrt, upSampleFactor, sqrt, gaussianSampler, k)
    requires next == Step(Column(path, k), drifts, covolatilityMatrixSqrt, upSampleFactor, sqrt,
      Sample(gaussianSampler, k * |first|, |first|))
    ensures IsSimulatedPath(AppendColumn(path, next), first, drifts, covolatilityMatrixSqrt, upSampleFactor, sqrt,
      gaussianSampler, k + 1)
  {
    var longer := AppendColumn(path, next);
    forall t | 0 <= t <= k ensures Column(longer, t) == Column(path, t) {
    }
    assert Column(longer, k + 1) == next;
    forall t | 1 <= t <= k + 1
      ensures StepTaken(longer, drifts, covolatilityMatrixSqrt, upSampleFactor, sqrt, gaussianSampler, t)
    {
      if t <= k {
        assert StepTaken(path, drifts, covolatilityMatrixSqrt, upSampleFactor, sqrt, gaussianSampler, t);
      }
    }
  }

  /** The recursive paths are simulated paths. */
  lemma {:induction false} SimulatedPricesArePaths(first: seq<real>, drifts: seq<real>,
      covolatilityMatrixSqrt: seq<seq<real>>, upSampleFactor: int, sqrt: real -> real,
      gaussianSampler: nat -> real, k: nat)
    requires k > 0 ==> Simulable(|first|, drifts, covolatilityMatrixSqrt, upSampleFactor, sqrt)
    ensures IsSimulatedPath(SimulatedPrices(first, drifts, covolatilityMatrixSqrt, upSampleFactor, sqrt, gaussianSampler, k),
      first, drifts, covolatilityMatrixSqrt, upSampleFactor, sqrt, gaussianSampler, k)
  {
    var path := SimulatedPrices(first, drifts, covolatilityMatrixSqrt, upSampleFactor, sqrt, gaussianSampler, k);
    if k == 0 {
      assert Column(path, 0) == first;
    } else {
      var previous := SimulatedPrices(first, drifts, covolatilityMatrixSqrt, upSampleFactor, sqrt, gaussianSampler, k - 1);
      SimulatedPricesArePaths(first, drifts, covolatilityMatrixSqrt, upSampleFactor, sqrt, gaussianSampler, k - 1);
      SimulatedPricesNext(first, drifts, covolatilityMatrixSqrt, upSampleFactor, sqrt, gaussianSampler, k - 1);
      ExtendSimulatedPath(previous, first, drifts, covolatilityMatrixSqrt, upSampleFactor, sqrt, gaussianSampler,
        k - 1, Step(Column(previous, k - 1), drifts, covolatilityMatrixSqrt, upSampleFactor, sqrt,
          Sample(gaussianSampler, (k - 1) * |first|, |first|)));
    }
  }

  /** Every row without its last entry. */
  function WithoutLastColumn(rows: seq<seq<real>>): seq<seq<real>>
    requires forall r :: 0 <= r < |rows| ==> |rows[r]| > 0
  {
    seq(|rows|, r requires 0 <= r < |rows| => rows[r][..|rows[r]| - 1])
  }

  /** A simulated path without its last column is the simulated path one
      step shorter, and the path is that one with its last column appended. */
  lemma ShorterSimulatedPath(path: seq<seq<real>>, first: seq<real>, drifts: seq<real>,
      covolatilityMatrixSqrt: seq<seq<real>>, upSampleFactor: int, sqrt: real -> real,
      gaussianSampler: nat -> real, k: nat)
    requires k > 0 && Simulable(|first|, drifts, covolatilityMatrixSqrt, upSampleFactor, sqrt)
    requires IsSimulatedPath(path, first, drifts, covolatilityMatrixSqrt, upSampleFactor, sqrt, gaussianSampler, k)
    ensures IsSimulatedPath(WithoutLastColumn(path), first, drifts, covolatilityMatrixSqrt, upSampleFactor, sqrt,
      gaussianSampler, k - 1)
    ensures path == AppendColumn(WithoutLastColumn(path), Column(path, k))
  {
    var shorter := WithoutLastColumn(path);
    forall t | 0 <= t <= k - 1 ensures Column(shorter, t) == Column(path, t) {
    }
    forall t | 1 <= t <= k - 1
      ensures StepTaken(shorter, drifts, covolatilityMatrixSqrt, upSampleFactor, sqrt, gaussianSampler, t)
    {
      assert StepTaken(path, drifts, covolatilityMatrixSqrt, upSampleFactor, sqrt, gaussianSampler, t);
    }
    forall r | 0 <= r < |path| ensures path[r] == shorter[r] + [Column(path, k)[r]] {
    }
  }

  /** Simulated paths are the recursive paths. */
  lemma {:induction false} PathsAreSimulatedPrices(path: seq<seq<real>>, first: seq<real>, drifts: seq<real>,
      covolatilityMatrixSqrt: seq<seq<real>>, upSampleFactor: int, sqrt: real -> real,
      gaussianSampler: nat -> real, k: nat)
    requires k > 0 ==> Simulable(|first|, drifts, covolatilityMatrixSqrt, upSampleFactor, sqrt)
    requires IsSimulatedPath(path, first, drifts, covolatilityMatrixSqrt, upSampleFactor, sqrt, gaussianSampler, k)
    ensures path == SimulatedPrices(first, drifts, covolatilityMatrixSqrt, upSampleFactor, sqrt, gaussianSampler, k)
    decreases k
  {
    var expected := SimulatedPrices(first, drifts, covolatilityMatrixSqrt, upSampleFactor, sqrt, gaussianSampler, k);
    if k == 0 {
      forall r | 0 <= r < |path| ensures path[r] == expected[r] {
        assert path[r][0] == Column(path, 0)[r];
      }
    } else {
      var shorter := WithoutLastColumn(path);
      ShorterSimulatedPath(path, first, drifts, covolatilityMatrixSqrt, upSampleFactor, sqrt, gaussianSampler, k);
      PathsAreSimulatedPrices(shorter, first, drifts, covolatilityMatrixSqrt, upSampleFactor, sqrt, gaussianSampler, k - 1);
      SimulatedPricesNext(first, drifts, covolatilityMatrixSqrt, upSampleFactor, sqrt, gaussianSampler, k - 1);
      assert Column(shorter, k - 1) == Column(path, k - 1);
      assert StepTaken(path, drifts, covolatilityMatrixSqrt, upSampleFactor, sqrt, gaussianSampler, k);
      assert Column(path, k) == Step(Column(shorter, k - 1), drifts, covolatilityMatrixSqrt, upSampleFactor, sqrt,
        Sample(gaussianSampler, (k - 1) * |first|, |first|));
    }
  }

  /** The column-by-column description and the recursive one agree, in both
      directions. */
  lemma SimulatedPathIff(path: seq<seq<real>>, first: seq<real>, drifts: seq<real>,
      covolatilityMatrixSqrt: seq<seq<real>>, upSampleFactor: int, sqrt: real -> real,
      gaussianSampler: nat -> real, k: nat)
    requires k > 0 ==> Simulable(|first|, drifts, covolatilityMatrixSqrt, upSampleFactor, sqrt)
    ensures IsSimulatedPath(path, first, drifts, covolatilityMatrixSqrt, upSampleFactor, sqrt, gaussianSampler, k) <==>
      path == SimulatedPrices(first, drifts, covolatilityMatrixSqrt, upSampleFactor, sqrt, gaussianSampler, k)
  {
    SimulatedPricesArePaths(first, drifts, covolatilityMatrixSqrt, upSampleFactor, sqrt, gaussianSampler, k);
    if IsSimulatedPath(path, first, drifts, covolatilityMatrixSqrt, upSampleFactor, sqrt, gaussianSampler, k) {
      PathsAreSimulatedPrices(path, first, drifts, covolatilityMatrixSqrt, upSampleFactor, sqrt, gaussianSampler, k);
    }
  }

  lemma DrawsOfNextStep(k: nat, n: nat)
    requires k >= 1
    ensures (k - 1) * n + n == k * n
  {
  }

  /** Prices already on a path are never rewritten: the path after `k`
      steps is a prefix of the path after any later step. */
  lemma {:induction false} EarlierPricesAreKept(first: seq<real>, drifts: seq<real>,
      covolatilityMatrixSqrt: seq<seq<real>>, upSampleFactor: int, sqrt: real -> real,
      gaussianSampler: nat -> real, k: nat, later: nat)
    requires k <= later
    requires later > 0 ==> Simulable(|first|, drifts, covolatilityMatrixSqrt, upSampleFactor, sqrt)
    ensures forall i :: 0 <= i < |first| ==>
      SimulatedPrices(first, drifts, covolatilityMatrixSqrt, upSampleFactor, sqrt, gaussianSampler, later)[i][..k + 1] ==
      SimulatedPrices(first, drifts, covolatilityMatrixSqrt, upSampleFactor, sqrt, gaussianSampler, k)[i]
  {
    var path := SimulatedPrices(first, drifts, covolatilityMatrixSqrt, upSampleFactor, sqrt, gaussianSampler, later);
    if later == k {
      forall i | 0 <= i < |first| ensures path[i][..k + 1] == path[i] {
        assert |path[i]| == k + 1;
      }
    } else {
      EarlierPricesAreKept(first, drifts, covolatilityMatrixSqrt, upSampleFactor, sqrt, gaussianSampler, k, later - 1);
      var previous := SimulatedPrices(first, drifts, covolatilityMatrixSqrt, upSampleFactor, sqrt, gaussianSampler, later - 1);
      forall i | 0 <= i < |first| ensures path[i][..k + 1] == previous[i][..k + 1] {
        assert path[i] == previous[i] + [path[i][later]];
        assert path[i][..k + 1] == (previous[i] + [path[i][later]])[..k + 1];
      }
    }
  }

  /** A column of zeros contributes nothing to the row-vector product. */
  lemma {:induction false} ColumnDotOfZeroColumn(z: seq<real>, m: seq<seq<real>>, j: nat, k: nat)
    requires k <= |z| && k <= |m|
    requires forall i :: 0 <= i < k ==> j < |m[i]| && m[i][j] == 0.0
    ensures ColumnDot(z, m, j, k) == 0.0
  {
    if k > 0 {
      ColumnDotOfZeroColumn(z, m, j, k - 1);
      ProductCommutes(z[k - 1], m[k - 1][j]);
      ProductWithZero(m[k - 1][j], z[k - 1]);
    }
  }

  /** Without noise (a zero square-root matrix) a step only applies the
      drift, and the drift is counted one and a half times: the drift vector
      stands in where the squared volatilities are named. */
  lemma StepWithoutNoise(s: seq<real>, drifts: seq<real>, covolatilityMatrixSqrt: seq<seq<real>>,
      upSampleFactor: int, sqrt: real -> real, z: seq<real>, i: nat)
    requires Simulable(|s|, drifts, covolatilityMatrixSqrt, upSampleFactor, sqrt) && |z| == |s| && i < |s|
    requires forall r, c :: 0 <= r < |covolatilityMatrixSqrt| && 0 <= c < |covolatilityMatrixSqrt[r]| ==>
      covolatilityMatrixSqrt[r][c] == 0.0
    ensures Step(s, drifts, covolatilityMatrixSqrt, upSampleFactor, sqrt, z)[i] ==
      s[i] + 1.5 * drifts[i] * s[i] / StepsPerYear(upSampleFactor)
  {
    var x := StepsPerYear(upSampleFactor);
    ColumnDotOfZeroColumn(z, covolatilityMatrixSqrt, i, |z|);
    calc {
      (drifts[i] + drifts[i] * 0.5) * s[i] * (1.0 / x);
      == { assert drifts[i] + drifts[i] * 0.5 == 1.5 * drifts[i]; }
         1.5 * drifts[i] * s[i] * (1.0 / x);
      == 1.5 * drifts[i] * s[i] / x;
    }
  }

  /** A stock whose price is zero stays at zero: both terms of a step are
      proportional to the price. */
  lemma ZeroPriceIsAbsorbing(s: seq<real>, drifts: seq<real>, covolatilityMatrixSqrt: seq<seq<real>>,
      upSampleFactor: int, sqrt: real -> real, z: seq<real>, i: nat)
    requires Simulable(|s|, drifts, covolatilityMatrixSqrt, upSampleFactor, sqrt) && |z| == |s| && i < |s|
    requires s[i] == 0.0
    ensures Step(s, drifts, covolatilityMatrixSqrt, upSampleFactor, sqrt, z)[i] == 0.0
  {
  }

  /** With zero drifts and a zero square-root matrix every path stays at
      its first price. */
  lemma {:induction false} ConstantWithoutDriftOrNoise(first: seq<real>, drifts: seq<real>,
      covolatilityMatrixSqrt: seq<seq<real>>, upSampleFactor: int, sqrt: real -> real,
      gaussianSampler: nat -> real, k: nat)
    requires k > 0 ==> Simulable(|first|, drifts, covolatilityMatrixSqrt, upSampleFactor, sqrt)
    requires forall i :: 0 <= i < |drifts| ==> drifts[i] == 0.0
    requires forall r, c :: 0 <= r < |covolatilityMatrixSqrt| && 0 <= c < |covolatilityMatrixSqrt[r]| ==>
      covolatilityMatrixSqrt[r][c] == 0.0
    ensures forall i :: 0 <= i < |first| ==>
      SimulatedPrices(first, drifts, covolatilityMatrixSqrt, upSampleFactor, sqrt, gaussianSampler, k)[i] ==
      seq(k + 1, t => first[i])
  {
    var path := SimulatedPrices(first, drifts, covolatilityMatrixSqrt, upSampleFactor, sqrt, gaussianSampler, k);
    if k > 0 {
      ConstantWithoutDriftOrNoise(first, drifts, covolatilityMatrixSqrt, upSampleFactor, sqrt, gaussianSampler, k - 1);
      var previous := SimulatedPrices(first, drifts, covolatilityMatrixSqrt, upSampleFactor, sqrt, gaussianSampler, k - 1);
      var s := Column(previous, k - 1);
      var z := Sample(gaussianSampler, (k - 1) * |first|, |first|);
      var next := Step(s, drifts, covolatilityMatrixSqrt, upSampleFactor, sqrt, z);
      forall i | 0 <= i < |first| ensures path[i] == seq(k + 1, t => first[i]) {
        StepWithoutNoise(s, drifts, covolatilityMatrixSqrt, upSampleFactor, sqrt, z, i);
        assert next[i] == s[i] + 1.5 * 0.0 * s[i] / StepsPerYear(upSampleFactor);
        assert s[i] == first[i];
        assert path[i] == previous[i] + [next[i]];
      }
    } else {
      forall i | 0 <= i < |first| ensures path[i] == seq(k + 1, t => first[i]) {
      }
    }
  }

  /** Entry 0 of every row. */
  function FirstPrices(dailyPricesOfStocks: seq<seq<real>>): seq<real>
    requires forall i :: 0 <= i < |dailyPricesOfStocks| ==> |dailyPricesOfStocks[i]| > 0
  {
    Column(dailyPricesOfStocks, 0)
  }

  // ---------------------------------------------------------------------
  // The vector helpers
  // ---------------------------------------------------------------------

  method VectorAdd(leftVector: seq<real>, rightVector: seq<real>) returns (sum: seq<real>)
    requires |leftVector| <= |rightVector|
    ensures |sum| == |leftVector|
    ensures forall i :: 0 <= i < |sum| ==> sum[i] == leftVector[i] + rightVector[i]
    ensures sum == Add(leftVector, rightVector)
  {
    sum := [];
    for i := 0 to |leftVector|
      invariant |sum| == i
      invariant forall k :: 0 <= k < i ==> sum[k] == leftVector[k] + rightVector[k]
    {
      sum := sum + [leftVector[i] + rightVector[i]];
    }
  }

  method ScaleVector(vector: seq<real>, scaleFactor: real) returns (scaled: seq<real>)
    ensures |scaled| == |vector|
    ensures forall i :: 0 <= i < |scaled| ==> scaled[i] == vector[i] * scaleFactor
    ensures scaled == Scale(vector, scaleFactor)
  {
    scaled := [];
    for i := 0 to |vector|
      invariant |scaled| == i
      invariant forall k :: 0 <= k < i ==> scaled[k] == Product(vector[k], scaleFactor)
    {
      scaled := scaled + [Product(vector[i], scaleFactor)];
    }
  }

  method HadamardProduct(leftVector: seq<real>, rightVector: seq<real>) returns (hadamardProduct: seq<real>)
    requires |leftVector| <= |rightVector|
    ensures |hadamardProduct| == |leftVector|
    ensures forall i :: 0 <= i < |hadamardProduct| ==> hadamardProduct[i] == leftVector[i] * rightVector[i]
    ensures hadamardProduct == Hadamard(leftVector, rightVector)
  {
    hadamardProduct := [];
    for i := 0 to |leftVector|
      invariant |hadamardProduct| == i
      invariant forall k :: 0 <= k < i ==> hadamardProduct[k] == Product(leftVector[k], rightVector[k])
    {
      hadamardProduct := hadamardProduct + [Product(leftVector[i], rightVector[i])];
    }
  }

  /** The matrix library's product of a one-row matrix and a matrix whose
      row count is the row's length: column by column, each entry the sum
      over `k` of `row[k] * matrix[k, j]`, accumulated from `k = 0`. */
  method RowTimesMatrix(row: array<real>, matrix: array2<real>) returns (product: array2<real>)
    requires row.Length == matrix.Length0
    ensures fresh(product)
    ensures product.Length0 == 1 && product.Length1 == matrix.Length1
    ensures forall j :: 0 <= j < matrix.Length1 ==>
      product[0, j] == ColumnDot(row[..], SDESystem.Grid(matrix), j, row.Length)
  {
    product := new real[1, matrix.Length1];
    for j := 0 to matrix.Length1
      invariant forall c :: 0 <= c < j ==> product[0, c] == ColumnDot(row[..], SDESystem.Grid(matrix), c, row.Length)
    {
      var s := 0.0;
      for k := 0 to row.Length
        invariant s == ColumnDot(row[..], SDESystem.Grid(matrix), j, k)
      {
        s := s + Product(row[k], matrix[k, j]);
      }
      product[0, j] := s;
    }
  }

  /** The row vector `m2` times the matrix `m1`: the list is copied into an
      array matrix (columns sized by row 0), the vector into a one-row
      matrix, and row 0 of their product is returned. */
  method MatrixVectorProduct(m1: seq<seq<real>>, m2: seq<real>) returns (productAsArrayList: seq<real>)
    requires SDESystem.WideEnough(m1) && |m2| == |m1|
    ensures |productAsArrayList| == |m1[0]|
    ensures forall j :: 0 <= j < |productAsArrayList| ==> productAsArrayList[j] == ColumnDot(m2, m1, j, |m2|)
    ensures productAsArrayList == RowTimes(m2, m1)
  {
    var basicM1 := SDESystem.ConvertToBasicArrayMatrix(m1);
    var basicM2 := SDESystem.ConvertToBasicArray(m2);
    var product := RowTimesMatrix(basicM2, basicM1);
    productAsArrayList := SDESystem.ConvertToArrayList(product);
    forall j | 0 <= j < |m1[0]|
      ensures productAsArrayList[j] == ColumnDot(m2, m1, j, |m2|)
    {
      ColumnDotOfTruncated(m2, m1, j, |m2|);
    }
  }

  /** Cutting the rows of `m` to row 0's length does not change a column
      below row 0's length. */
  lemma {:induction false} ColumnDotOfTruncated(z: seq<real>, m: seq<seq<real>>, j: nat, k: nat)
    requires SDESystem.WideEnough(m) && j < |m[0]| && k <= |z| && k <= |m|
    ensures ColumnDot(z, SDESystem.Truncated(m), j, k) == ColumnDot(z, m, j, k)
  {
    if k > 0 {
      ColumnDotOfTruncated(z, m, j, k - 1);
      assert SDESystem.Truncated(m)[k - 1][j] == m[k - 1][j];
    }
  }

  // ---------------------------------------------------------------------
  // The simulation object
  // ---------------------------------------------------------------------

  class NumericalSDESolution {
    /** The draws of the random generator, in order. */
    const gaussianSampler: nat -> real
    /** How many draws have been used up. */
    var drawsTaken: nat
    const sdeSystemForStocks: SDESystem.SDESystem
    /** The square root used to scale the noise term. */
    const sqrt: real -> real
    var dailyPrices: seq<seq<real>>

    /** Seeds one path per stock with its first observed price, then appends
        one simulated price vector per step for `size0 * u - 1` steps. */
    constructor (SDESystemForStocks: SDESystem.SDESystem, dailyPricesOfStocks: seq<seq<real>>,
        upSampleFactor: int, gaussianSampler: nat -> real, sqrt: real -> real)
      requires SDESystemForStocks.Valid()
      requires |dailyPricesOfStocks| > 0
      requires forall i :: 0 <= i < |dailyPricesOfStocks| ==> |dailyPricesOfStocks[i]| > 0
      requires StepCount(|dailyPricesOfStocks[0]|, upSampleFactor) > 0 ==>
        Simulable(|dailyPricesOfStocks|, SDESystemForStocks.driftsOfStocks,
          SDESystemForStocks.covolatilityMatrixSqrt, upSampleFactor, sqrt)
      ensures sdeSystemForStocks == SDESystemForStocks && this.gaussianSampler == gaussianSampler && this.sqrt == sqrt
      ensures IsSimulatedPath(dailyPrices, FirstPrices(dailyPricesOfStocks), SDESystemForStocks.driftsOfStocks,
        SDESystemForStocks.covolatilityMatrixSqrt, upSampleFactor, sqrt, gaussianSampler,
        StepCount(|dailyPricesOfStocks[0]|, upSampleFactor))
      ensures drawsTaken == StepCount(|dailyPricesOfStocks[0]|, upSampleFactor) * |dailyPricesOfStocks|
    {
      this.sdeSystemForStocks := SDESystemForStocks;
      this.gaussianSampler := gaussianSampler;
      this.sqrt := sqrt;
      drawsTaken := 0;
      dailyPrices := [];
      new;
      var n := |dailyPricesOfStocks|;
      var first := FirstPrices(dailyPricesOfStocks);
      ghost var drifts := SDESystemForStocks.driftsOfStocks;
      ghost var root := SDESystemForStocks.covolatilityMatrixSqrt;
      for i := 0 to n
        invariant drawsTaken == 0
        invariant dailyPrices == SimulatedPrices(first[..i], drifts, root, upSampleFactor, sqrt, gaussianSampler, 0)
      {
        assert first[..i + 1] == first[..i] + [dailyPricesOfStocks[i][0]];
        dailyPrices := dailyPrices + [[dailyPricesOfStocks[i][0]]];
      }
      assert first[..n] == first;
      SimulatedPricesArePaths(first, drifts, root, upSampleFactor, sqrt, gaussianSampler, 0);
      var stepsBound := |dailyPricesOfStocks[0]| * upSampleFactor;
      ghost var steps := StepCount(|dailyPricesOfStocks[0]|, upSampleFactor);
      assert steps == if stepsBound > 1 then stepsBound - 1 else 0;
      ghost var simulable := steps > 0;
      assert simulable ==> Simulable(n, drifts, root, upSampleFactor, sqrt);
      var i := 1;
      while i < stepsBound
        invariant 1 <= i <= steps + 1
        invariant IsSimulatedPath(dailyPrices, first, drifts, root, upSampleFactor, sqrt, gaussianSampler, i - 1)
        invariant drawsTaken == (i - 1) * n
      {
        assert simulable;
        ghost var previous := dailyPrices;
        var nextValues := SimulateDay(i, upSampleFactor);
        AddToDailyPrices(nextValues);
        ExtendSimulatedPath(previous, first, drifts, root, upSampleFactor, sqrt, gaussianSampler, i - 1, nextValues);
        DrawsOfNextStep(i, n);
        assert drawsTaken == i * n;
        i := i + 1;
      }
    }

    /** Appends `nextValues[i]` to row `i`, for every `i < |nextValues|`. */
    method AddToDailyPrices(nextValues: seq<real>)
      requires |nextValues| <= |dailyPrices|
      modifies this`dailyPrices
      ensures dailyPrices == AppendColumn(old(dailyPrices), nextValues)
    {
      for i := 0 to |nextValues|
        invariant dailyPrices == AppendColumn(old(dailyPrices), nextValues[..i])
      {
        dailyPrices := dailyPrices[i := dailyPrices[i] + [nextValues[i]]];
      }
      assert nextValues[..|nextValues|] == nextValues;
    }

    /** The prices of day `day`: one step from every row's entry `day - 1`. */
    method SimulateDay(day: nat, upSampleFactor: int) returns (todaysStockPrices: seq<real>)
      requires 1 <= day && forall i :: 0 <= i < |dailyPrices| ==> day - 1 < |dailyPrices[i]|
      requires Simulable(|dailyPrices|, sdeSystemForStocks.driftsOfStocks,
        sdeSystemForStocks.covolatilityMatrixSqrt, upSampleFactor, sqrt)
      requires sdeSystemForStocks.Valid()
      modifies this`drawsTaken
      ensures todaysStockPrices == Step(Column(dailyPrices, day - 1), sdeSystemForStocks.driftsOfStocks,
        sdeSystemForStocks.covolatilityMatrixSqrt, upSampleFactor, sqrt,
        Sample(gaussianSampler, old(drawsTaken), |dailyPrices|))
      ensures drawsTaken == old(drawsTaken) + |dailyPrices|
    {
      var yesterdaysStockPrices: seq<real> := [];
      for i := 0 to |dailyPrices|
        invariant yesterdaysStockPrices == Column(dailyPrices, day - 1)[..i]
      {
        yesterdaysStockPrices := yesterdaysStockPrices + [dailyPrices[i][day - 1]];
      }
      assert Column(dailyPrices, day - 1)[..|dailyPrices|] == Column(dailyPrices, day - 1);
      todaysStockPrices := EulerMaruyamaIteration(yesterdaysStockPrices, upSampleFactor);
    }

    /** One Euler-Maruyama step from the prices `Sj`, drawing `|Sj|` values. */
    method EulerMaruyamaIteration(Sj: seq<real>, upSampleFactor: int) returns (Sjplus1: seq<real>)
      requires Simulable(|Sj|, sdeSystemForStocks.driftsOfStocks,
        sdeSystemForStocks.covolatilityMatrixSqrt, upSampleFactor, sqrt)
      requires sdeSystemForStocks.Valid()
      modifies this`drawsTaken
      ensures Sjplus1 == Step(Sj, sdeSystemForStocks.driftsOfStocks, sdeSystemForStocks.covolatilityMatrixSqrt,
        upSampleFactor, sqrt, Sample(gaussianSampler, old(drawsTaken), |Sj|))
      ensures drawsTaken == old(drawsTaken) + |Sj|
    {
      var drifts := sdeSystemForStocks.GetDriftsOfStocks();
      var squareVolatilities := sdeSystemForStocks.GetDriftsOfStocks();
      var covolatilityMatrixSqrt := sdeSystemForStocks.GetCovolatilityMatrixSqrt();
      var nDimensionalGaussianSample := GenerateNDimensionalGaussianSample(|Sj|);
      var halfSquareVolatilities := ScaleVector(squareVolatilities, 0.5);
      var driftTerm := VectorAdd(drifts, halfSquareVolatilities);
      var driftTimesPrices := HadamardProduct(driftTerm, Sj);
      var driftStep := ScaleVector(driftTimesPrices, 1.0 / StepsPerYear(upSampleFactor));
      var deterministic := VectorAdd(Sj, driftStep);
      var scaledPrices := ScaleVector(Sj, 1.0 / sqrt(StepsPerYear(upSampleFactor)));
      var noise := MatrixVectorProduct(covolatilityMatrixSqrt, nDimensionalGaussianSample);
      var noiseStep := HadamardProduct(scaledPrices, noise);
      Sjplus1 := VectorAdd(deterministic, noiseStep);
      StepFromVectorOperations(Sj, drifts, covolatilityMatrixSqrt, upSampleFactor, sqrt, nDimensionalGaussianSample);
    }

    /** The next `dimensionality` draws of the generator. */
    method GenerateNDimensionalGaussianSample(dimensionality: nat) returns (nDimensionalGaussianSample: seq<real>)
      modifies this`drawsTaken
      ensures nDimensionalGaussianSample == Sample(gaussianSampler, old(drawsTaken), dimensionality)
      ensures drawsTaken == old(drawsTaken) + dimensionality
    {
      nDimensionalGaussianSample := [];
      for i := 0 to dimensionality
        invariant drawsTaken == old(drawsTaken) + i
        invariant nDimensionalGaussianSample == Sample(gaussianSampler, old(drawsTaken), i)
      {
        nDimensionalGaussianSample := nDimensionalGaussianSample + [gaussianSampler(drawsTaken)];
        drawsTaken := drawsTaken + 1;
      }
    }

    function GetDailyPrices(): seq<seq<real>>
      reads this
    {
      dailyPrices
    }
  }
}
