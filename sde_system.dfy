/** The stochastic model handed to the simulator: per-stock drifts and
    volatilities split out of the estimated statistics, the covolatility
    matrix, and a square root of it. The square root comes from an
    eigen-decomposition in a matrix library and enters the model as a
    constructor argument. Also the copy helpers between list-of-lists
    matrices (`seq<seq<real>>`) and two-dimensional arrays (`array2<real>`). */
module SDESystem {
  import opened GatherDriftsAndVolatilities

  // ---------------------------------------------------------------------
  // Shapes of list-of-lists matrices and of arrays
  // ---------------------------------------------------------------------

  /** A non-empty list of rows, none shorter than row 0: the shape a
      conversion that sizes its columns by row 0 can read. */
  predicate WideEnough(m: seq<seq<real>>) {
    |m| > 0 && forall i :: 0 <= i < |m| ==> |m[i]| >= |m[0]|
  }

  /** A non-empty list of rows, all as long as row 0. */
  predicate Rectangular(m: seq<seq<real>>) {
    |m| > 0 && forall i :: 0 <= i < |m| ==> |m[i]| == |m[0]|
  }

  /** Every row cut to the length of row 0. */
  function Truncated(m: seq<seq<real>>): seq<seq<real>>
    requires WideEnough(m)
  {
    seq(|m|, i requires 0 <= i < |m| => m[i][..|m[0]|])
  }

  /** The contents of an array matrix, row by row. */
  function Grid(a: array2<real>): seq<seq<real>>
    reads a
  {
    seq(a.Length0, i requires 0 <= i < a.Length0 reads a =>
      seq(a.Length1, j requires 0 <= j < a.Length1 reads a => a[i, j]))
  }

  // ---------------------------------------------------------------------
  // The model object
  // ---------------------------------------------------------------------

  class SDESystem {
    const driftsOfStocks: seq<real>
    const volatilitiesOfStocks: seq<real>
    /** The matrix passed in, kept by reference. */
    const covolatilityMatrix: array2<real>
    const covolatilityMatrixSqrt: seq<seq<real>>
    /** The per-stock statistics the object was built from. */
    ghost const statistics: seq<AssetStatistics>

    /** The two lists are the drift and volatility components of the
        statistics, stock by stock. */
    ghost predicate Valid() {
      |driftsOfStocks| == |statistics| && |volatilitiesOfStocks| == |statistics| &&
      forall i :: 0 <= i < |statistics| ==>
        driftsOfStocks[i] == statistics[i].drift && volatilitiesOfStocks[i] == statistics[i].volatility
    }

    /** Splits the per-stock pairs into a drift list and a volatility list,
        keeps the covolatility matrix as passed and stores its square root,
        computed once here and supplied by the caller. */
    constructor (driftsAndVolatilities: seq<AssetStatistics>, covolatilityMatrix: array2<real>,
        covolatilityMatrixSqrt: seq<seq<real>>)
      ensures Valid() && statistics == driftsAndVolatilities
      ensures |driftsOfStocks| == |driftsAndVolatilities|
      ensures this.covolatilityMatrix == covolatilityMatrix
      ensures this.covolatilityMatrixSqrt == covolatilityMatrixSqrt
    {
      var drifts: seq<real> := [];
      var volatilities: seq<real> := [];
      for i := 0 to |driftsAndVolatilities|
        invariant |drifts| == i && |volatilities| == i
        invariant forall k :: 0 <= k < i ==>
          drifts[k] == driftsAndVolatilities[k].drift && volatilities[k] == driftsAndVolatilities[k].volatility
      {
        drifts := drifts + [driftsAndVolatilities[i].drift];
        volatilities := volatilities + [driftsAndVolatilities[i].volatility];
      }
      driftsOfStocks := drifts;
      volatilitiesOfStocks := volatilities;
      statistics := driftsAndVolatilities;
      this.covolatilityMatrix := covolatilityMatrix;
      this.covolatilityMatrixSqrt := covolatilityMatrixSqrt;
    }

    /** The drift of every stock, in order. */
    function GetDriftsOfStocks(): (drifts: seq<real>)
      requires Valid()
      ensures |drifts| == |statistics|
      ensures forall i :: 0 <= i < |drifts| ==> drifts[i] == statistics[i].drift
    {
      driftsOfStocks
    }

    /** The volatility of every stock, in order. */
    function GetVolatilitiesOfStocks(): (volatilities: seq<real>)
      requires Valid()
      ensures |volatilities| == |statistics|
      ensures forall i :: 0 <= i < |volatilities| ==> volatilities[i] == statistics[i].volatility
    {
      volatilitiesOfStocks
    }

    function GetCovolatilityMatrixSqrt(): seq<seq<real>> {
      covolatilityMatrixSqrt
    }
  }

  // ---------------------------------------------------------------------
  // Conversions
  // ---------------------------------------------------------------------

  /** An array with as many rows as the list and as many columns as row 0,
      each entry copied; entries of longer rows beyond row 0's length are
      dropped. */
  method ConvertToBasicArrayMatrix(arrayListMatrix: seq<seq<real>>) returns (basicArrayMatrix: array2<real>)
    requires WideEnough(arrayListMatrix)
    ensures fresh(basicArrayMatrix)
    ensures basicArrayMatrix.Length0 == |arrayListMatrix| && basicArrayMatrix.Length1 == |arrayListMatrix[0]|
    ensures forall r, c :: 0 <= r < basicArrayMatrix.Length0 && 0 <= c < basicArrayMatrix.Length1 ==>
      basicArrayMatrix[r, c] == arrayListMatrix[r][c]
    ensures Grid(basicArrayMatrix) == Truncated(arrayListMatrix)
  {
    basicArrayMatrix := new real[|arrayListMatrix|, |arrayListMatrix[0]|];
    for row := 0 to |arrayListMatrix|
      invariant forall r, c :: 0 <= r < row && 0 <= c < |arrayListMatrix[0]| ==>
        basicArrayMatrix[r, c] == arrayListMatrix[r][c]
    {
      for collumn := 0 to |arrayListMatrix[0]|
        invariant forall r, c :: 0 <= r < row && 0 <= c < |arrayListMatrix[0]| ==>
          basicArrayMatrix[r, c] == arrayListMatrix[r][c]
        invariant forall c :: 0 <= c < collumn ==> basicArrayMatrix[row, c] == arrayListMatrix[row][c]
      {
        basicArrayMatrix[row, collumn] := arrayListMatrix[row][collumn];
      }
    }
    assert forall r :: 0 <= r < |arrayListMatrix| ==> Grid(basicArrayMatrix)[r] == Truncated(arrayListMatrix)[r];
  }

  /** An array of the same length holding the same elements. */
  method ConvertToBasicArray(arrayList: seq<real>) returns (basicArray: array<real>)
    ensures fresh(basicArray)
    ensures basicArray[..] == arrayList
  {
    basicArray := new real[|arrayList|];
    for i := 0 to |arrayList|
      invariant basicArray[..i] == arrayList[..i]
    {
      basicArray[i] := arrayList[i];
    }
  }

  /** One list per array row, each with one entry per column. */
  method ConvertToArrayListMatrix(basicArrayMatrix: array2<real>) returns (arrayListMatrix: seq<seq<real>>)
    ensures |arrayListMatrix| == basicArrayMatrix.Length0
    ensures forall r :: 0 <= r < |arrayListMatrix| ==> |arrayListMatrix[r]| == basicArrayMatrix.Length1
    ensures forall r, c :: 0 <= r < basicArrayMatrix.Length0 && 0 <= c < basicArrayMatrix.Length1 ==>
      arrayListMatrix[r][c] == basicArrayMatrix[r, c]
    ensures arrayListMatrix == Grid(basicArrayMatrix)
  {
    arrayListMatrix := [];
    for row := 0 to basicArrayMatrix.Length0
      invariant arrayListMatrix == Grid(basicArrayMatrix)[..row]
    {
      var currentRow: seq<real> := [];
      for column := 0 to basicArrayMatrix.Length1
        invariant currentRow == Grid(basicArrayMatrix)[row][..column]
      {
        currentRow := currentRow + [basicArrayMatrix[row, column]];
      }
      assert currentRow == Grid(basicArrayMatrix)[row];
      assert Grid(basicArrayMatrix)[..row + 1] == Grid(basicArrayMatrix)[..row] + [currentRow];
      arrayListMatrix := arrayListMatrix + [currentRow];
    }
  }

  /** Row 0 of the array, one entry per column; an array with columns but no
      rows has no row 0 to read. */
  method ConvertToArrayList(basicArrayMatrix: array2<real>) returns (arrayList: seq<real>)
    requires basicArrayMatrix.Length0 > 0 || basicArrayMatrix.Length1 == 0
    ensures |arrayList| == basicArrayMatrix.Length1
    ensures forall i :: 0 <= i < |arrayList| ==> arrayList[i] == basicArrayMatrix[0, i]
    ensures basicArrayMatrix.Length0 > 0 ==> arrayList == Grid(basicArrayMatrix)[0]
  {
    arrayList := [];
    for i := 0 to basicArrayMatrix.Length1
      invariant |arrayList| == i
      invariant forall k :: 0 <= k < i ==> arrayList[k] == basicArrayMatrix[0, k]
    {
      arrayList := arrayList + [basicArrayMatrix[0, i]];
    }
  }

  // ---------------------------------------------------------------------
  // Round trip
  // ---------------------------------------------------------------------

  /** Cutting rows to row 0's length changes nothing in a rectangular list,
      and cuts every row of any other list to the same length. */
  lemma {:induction false} TruncatedFacts(m: seq<seq<real>>)
    requires WideEnough(m)
    ensures Rectangular(Truncated(m))
    ensures Rectangular(m) <==> Truncated(m) == m
  {
    var t := Truncated(m);
    if Rectangular(m) {
      forall i | 0 <= i < |m| ensures t[i] == m[i] {
        assert |m[i]| == |m[0]|;
      }
    }
    if t == m {
      forall i | 0 <= i < |m| ensures |m[i]| == |m[0]| {
        assert m[i] == t[i];
      }
    }
  }

  /** Copying a rectangular list-of-lists into an array and back gives the
      original list; a ragged one comes back cut to row 0's length. */
  method ArrayListMatrixRoundTrip(arrayListMatrix: seq<seq<real>>) returns (copy: seq<seq<real>>)
    requires WideEnough(arrayListMatrix)
    ensures copy == Truncated(arrayListMatrix)
    ensures Rectangular(arrayListMatrix) ==> copy == arrayListMatrix
  {
    var basicArrayMatrix := ConvertToBasicArrayMatrix(arrayListMatrix);
    copy := ConvertToArrayListMatrix(basicArrayMatrix);
    TruncatedFacts(arrayListMatrix);
  }

  /** Copying an array into a list-of-lists and back gives an array with the
      same contents. */
  method BasicArrayMatrixRoundTrip(basicArrayMatrix: array2<real>) returns (copy: array2<real>)
    requires basicArrayMatrix.Length0 > 0
    ensures copy.Length0 == basicArrayMatrix.Length0 && copy.Length1 == basicArrayMatrix.Length1
    ensures Grid(copy) == Grid(basicArrayMatrix)
  {
    var arrayListMatrix := ConvertToArrayListMatrix(basicArrayMatrix);
    copy := ConvertToBasicArrayMatrix(arrayListMatrix);
    TruncatedFacts(arrayListMatrix);
  }
}
