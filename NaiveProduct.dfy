/** squareMatrixMultiply: the naive triple-loop product with its
    multiplication counter. */
module NaiveProduct {
  import opened Matrices
  import opened Slices
  import opened Operations

  /** squareMatrixMultiply: the naive product of a's rowLength x columnLength
      window and the columnLength x b.columnLength window of b, one
      multiplication per term. */
  method SquareMatrixMultiply(a: Slice, b: Slice) returns (res: OpResult)
    requires Valid(a) && a.rowLength > 0 && Covers(b, a.columnLength, b.columnLength)
    ensures fresh(res.result.matrix) && res.result.matrix.Length0 == a.rowLength && res.result.matrix.Length1 == b.columnLength
    ensures res.result == FullSlice(res.result.matrix)
    ensures View(res.result)
         == MatMul(View(a), Window(b, a.columnLength, b.columnLength), a.rowLength, a.columnLength, b.columnLength)
    ensures res.countMultiplications == a.rowLength * b.columnLength * a.columnLength && res.countAdditions == 0
  {
    ghost var m, k, p := a.rowLength, a.columnLength, b.columnLength;
    ghost var x, y := View(a), Window(b, k, p);
    var result := new int[a.rowLength, b.columnLength];
    var countMultiplicationsPerformed := 0;
    var resultRow := 0;
    while resultRow < a.rowLength
      invariant 0 <= resultRow <= m
      invariant countMultiplicationsPerformed == resultRow * p * k
      invariant forall r, c :: 0 <= r < m && 0 <= c < p && r < resultRow ==> result[r, c] == Dot(x, y, r, c, k)
    {
      var count := ProductRow(a, b, result, resultRow, x, y);
      countMultiplicationsPerformed := countMultiplicationsPerformed + count;
      assert (resultRow + 1) * p * k == resultRow * p * k + p * k;
      resultRow := resultRow + 1;
    }
    res := OpResult(FullSlice(result), countMultiplicationsPerformed, 0);
    MatEq(View(res.result), MatMul(x, y, m, k, p), m, p);
  }

  /** The middle loop of squareMatrixMultiply: row `row` of the result,
      one cell after another. */
  method ProductRow(a: Slice, b: Slice, result: array2<int>, row: nat, ghost x: Mat, ghost y: Mat)
    returns (count: int)
    requires Valid(a) && Covers(b, a.columnLength, b.columnLength)
    requires result != a.matrix && result != b.matrix
    requires row < a.rowLength && result.Length0 == a.rowLength && result.Length1 == b.columnLength
    requires IsMat(x, a.rowLength, a.columnLength) && IsMat(y, a.columnLength, b.columnLength)
    requires forall r, c :: 0 <= r < a.rowLength && 0 <= c < a.columnLength ==> x[r][c] == Get(a, r, c)
    requires forall r, c :: 0 <= r < a.columnLength && 0 <= c < b.columnLength ==> y[r][c] == Get(b, r, c)
    modifies result
    ensures count == b.columnLength * a.columnLength
    ensures forall r, c :: 0 <= r < result.Length0 && 0 <= c < result.Length1 ==>
              result[r, c] == if r == row then Dot(x, y, r, c, a.columnLength) else old(result[r, c])
  {
    ghost var k := a.columnLength;
    count := 0;
    var resultColumn := 0;
    while resultColumn < b.columnLength
      invariant 0 <= resultColumn <= b.columnLength
      invariant count == resultColumn * k
      invariant forall r, c :: 0 <= r < result.Length0 && 0 <= c < result.Length1 ==>
                  result[r, c] == if r == row && c < resultColumn then Dot(x, y, r, c, k) else old(result[r, c])
    {
      var cellCount := CellProduct(a, b, result, row, resultColumn, x, y);
      count := count + cellCount;
      assert (resultColumn + 1) * k == resultColumn * k + k;
      resultColumn := resultColumn + 1;
    }
  }

  /** The innermost loop of squareMatrixMultiply: cell (row, column) of the
      result as the sum of a's row times b's column, accumulated term by term,
      one multiplication per term. */
  method CellProduct(a: Slice, b: Slice, result: array2<int>, row: nat, column: nat, ghost x: Mat, ghost y: Mat)
    returns (count: int)
    requires Valid(a) && Covers(b, a.columnLength, b.columnLength)
    requires result != a.matrix && result != b.matrix
    requires row < a.rowLength && row < result.Length0 && column < b.columnLength && column < result.Length1
    requires IsMat(x, a.rowLength, a.columnLength) && IsMat(y, a.columnLength, b.columnLength)
    requires forall t :: 0 <= t < a.columnLength ==> x[row][t] == Get(a, row, t) && y[t][column] == Get(b, t, column)
    modifies result
    ensures count == a.columnLength
    ensures result[row, column] == Dot(x, y, row, column, a.columnLength)
    ensures forall r, c :: 0 <= r < result.Length0 && 0 <= c < result.Length1 && (r != row || c != column)
              ==> result[r, c] == old(result[r, c])
  {
    result[row, column] := 0;
    count := 0;
    var i := 0;
    while i < a.columnLength
      invariant 0 <= i <= a.columnLength
      invariant count == i
      invariant result[row, column] == Dot(x, y, row, column, i)
      invariant forall r, c :: 0 <= r < result.Length0 && 0 <= c < result.Length1 && (r != row || c != column)
                  ==> result[r, c] == old(result[r, c])
    {
      result[row, column] := result[row, column] + Get(a, row, i) * Get(b, i, column);
      count := count + 1;
      i := i + 1;
    }
  }
}
