/** The engine part of execute: each pair of matrices read from the input is
    multiplied by both algorithms, whose results are then reported side by
    side. */
module Execute {
  import opened Matrices
  import opened Slices
  import opened StrassenAlgebra
  import opened Operations
  import opened NaiveProduct
  import opened Strassen

  /** Both products of two n x n matrices agree. The naive product costs n^3
      multiplications and no additions; Strassen's costs MultCount(n)
      multiplications and AddCount(n) additions, never more multiplications
      than the naive n^3, and fewer from order 2 on. Multiplying by the identity returns the other operand, and
      multiplying by zero gives zero, under both algorithms. */
  method MultiplyBoth(a: Slice, b: Slice) returns (squareResult: OpResult, strassenResult: OpResult)
    requires SquarePow2(a, b)
    ensures HasOrder(squareResult.result, a.rowLength) && HasOrder(strassenResult.result, a.rowLength)
    ensures View(squareResult.result) == MatMul(View(a), View(b), a.rowLength, a.rowLength, a.rowLength)
    ensures View(strassenResult.result) == View(squareResult.result)
    ensures squareResult.countMultiplications == a.rowLength * a.rowLength * a.rowLength
    ensures squareResult.countAdditions == 0
    ensures strassenResult.countMultiplications == MultCount(a.rowLength)
    ensures strassenResult.countAdditions == AddCount(a.rowLength)
    ensures strassenResult.countMultiplications <= squareResult.countMultiplications
    ensures a.rowLength > 1 ==> strassenResult.countMultiplications < squareResult.countMultiplications
    ensures View(a) == Identity(a.rowLength) ==> View(strassenResult.result) == View(b)
    ensures View(b) == Identity(a.rowLength) ==> View(strassenResult.result) == View(a)
    ensures View(a) == Zero(a.rowLength, a.rowLength) || View(b) == Zero(a.rowLength, a.rowLength) ==>
              View(squareResult.result) == Zero(a.rowLength, a.rowLength)
              && View(strassenResult.result) == Zero(a.rowLength, a.rowLength)
  {
    squareResult := SquareMatrixMultiply(a, b);
    strassenResult := StrassenMultiply(a, b);
    MultCountBelowCube(a.rowLength);
    MatMulIdentity(View(a), View(b), a.rowLength);
    MatMulZero(View(a), View(b), a.rowLength, a.rowLength, a.rowLength);
  }

  /** A full slice of a new 1 x 1 buffer holding [[p]]. */
  method OneByOne(p: int) returns (s: Slice)
    ensures HasOrder(s, 1)
    ensures View(s) == [[p]]
  {
    var m := new int[1, 1];
    m[0, 0] := p;
    s := FullSlice(m);
    MatEq(View(s), [[p]], 1, 1);
  }

  /** The one-by-one product [[3]] * [[4]] is [[12]]. */
  lemma OneByOneProduct()
    ensures MatMul([[3]], [[4]], 1, 1, 1) == [[12]]
    ensures MultCount(1) == 1 && AddCount(1) == 0
  {
    assert Dot([[3]], [[4]], 0, 0, 1) == 12;
    MatEq(MatMul([[3]], [[4]], 1, 1, 1), [[12]], 1, 1);
  }

  /** The one-by-one scenario run through the engine: both algorithms yield
      [[12]] from [[3]] and [[4]], each with 1 multiplication and no
      additions. */
  method OneByOneScenario() returns (squareResult: OpResult, strassenResult: OpResult)
    ensures HasOrder(squareResult.result, 1) && HasOrder(strassenResult.result, 1)
    ensures View(squareResult.result) == [[12]] && View(strassenResult.result) == [[12]]
    ensures squareResult.countMultiplications == 1 && squareResult.countAdditions == 0
    ensures strassenResult.countMultiplications == 1 && strassenResult.countAdditions == 0
  {
    var a := OneByOne(3);
    var b := OneByOne(4);
    squareResult, strassenResult := MultiplyBoth(a, b);
    OneByOneProduct();
  }

  /** The two-by-two product [[1,2],[3,4]] * [[5,6],[7,8]] is [[19,22],[43,50]],
      and Strassen's counts for order 2 are 7 multiplications and 18
      additions. */
  lemma TwoByTwoProduct()
    ensures MatMul([[1, 2], [3, 4]], [[5, 6], [7, 8]], 2, 2, 2) == [[19, 22], [43, 50]]
    ensures MultCount(2) == 7 && AddCount(2) == 18
  {
    var x: Mat := [[1, 2], [3, 4]];
    var y: Mat := [[5, 6], [7, 8]];
    assert Dot(x, y, 0, 0, 2) == 19 && Dot(x, y, 0, 1, 2) == 22;
    assert Dot(x, y, 1, 0, 2) == 43 && Dot(x, y, 1, 1, 2) == 50;
    MatEq(MatMul(x, y, 2, 2, 2), [[19, 22], [43, 50]], 2, 2);
  }

  /** A full slice of a new 2 x 2 buffer holding [[p, q], [r, t]]. */
  method TwoByTwo(p: int, q: int, r: int, t: int) returns (s: Slice)
    ensures HasOrder(s, 2)
    ensures View(s) == [[p, q], [r, t]]
  {
    var m := new int[2, 2];
    m[0, 0], m[0, 1], m[1, 0], m[1, 1] := p, q, r, t;
    s := FullSlice(m);
    MatEq(View(s), [[p, q], [r, t]], 2, 2);
  }

  /** The two-by-two scenario run through the engine: both algorithms yield
      [[19,22],[43,50]]; the naive product performs 8 multiplications and no
      additions, Strassen's 7 multiplications and 18 additions. */
  method TwoByTwoScenario() returns (squareResult: OpResult, strassenResult: OpResult)
    ensures HasOrder(squareResult.result, 2) && HasOrder(strassenResult.result, 2)
    ensures View(squareResult.result) == [[19, 22], [43, 50]]
    ensures View(strassenResult.result) == [[19, 22], [43, 50]]
    ensures squareResult.countMultiplications == 8 && squareResult.countAdditions == 0
    ensures strassenResult.countMultiplications == 7 && strassenResult.countAdditions == 18
  {
    var a := TwoByTwo(1, 2, 3, 4);
    var b := TwoByTwo(5, 6, 7, 8);
    assert IsPow2(2) by { assert IsPow2(1); }
    squareResult, strassenResult := MultiplyBoth(a, b);
    TwoByTwoProduct();
  }
}
