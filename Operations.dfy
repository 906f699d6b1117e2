/** matrixOperation and its four wrappers: element-wise sums and differences
    of slices, written into a destination window, with the number of
    element operations as the addition count. */
module Operations {
  import opened Matrices
  import opened Slices

  /** MatrixOperationResult without its label and operand back-references. */
  datatype OpResult = OpResult(result: Slice, countMultiplications: int, countAdditions: int)

  /** Reading src while writing dest in row-major order never reads a cell
      that has already been written: the two windows live in different
      buffers, sit at the same offsets (dest aliases src exactly), or do not
      overlap. */
  predicate SafeAlias(src: Slice, dest: Slice, rows: nat, cols: nat)
  {
    || src.matrix != dest.matrix
    || (src.rowStart == dest.rowStart && src.columnStart == dest.columnStart)
    || src.rowStart + rows <= dest.rowStart || dest.rowStart + rows <= src.rowStart
    || src.columnStart + cols <= dest.columnStart || dest.columnStart + cols <= src.columnStart
  }

  /** Cell (i, j) of a buffer lies in the rows x cols window of s. */
  predicate InWindow(s: Slice, rows: nat, cols: nat, i: int, j: int)
  {
    s.rowStart <= i < s.rowStart + rows && s.columnStart <= j < s.columnStart + cols
  }

  /** matrixOperation: applies op cell by cell to the a.rowLength x
      a.columnLength windows of a and b, writing into the window of dest. */
  method MatrixOperation(a: Slice, b: Slice, dest: Slice, op: Op) returns (res: OpResult)
    requires Valid(a) && Covers(b, a.rowLength, a.columnLength) && Covers(dest, a.rowLength, a.columnLength)
    requires SafeAlias(a, dest, a.rowLength, a.columnLength) && SafeAlias(b, dest, a.rowLength, a.columnLength)
    modifies dest.matrix
    ensures res == OpResult(dest, 0, a.rowLength * a.columnLength)
    ensures Window(dest, a.rowLength, a.columnLength)
         == Combine(op, old(View(a)), old(Window(b, a.rowLength, a.columnLength)), a.rowLength, a.columnLength)
    ensures Contents(dest.matrix)
         == Paste(old(Contents(dest.matrix)), dest.rowStart, dest.columnStart,
                  Window(dest, a.rowLength, a.columnLength), a.rowLength, a.columnLength)
  {
    ghost var rows, cols := a.rowLength, a.columnLength;
    ghost var before, x, y := Contents(dest.matrix), View(a), Window(b, rows, cols);
    var countAdditions := 0;
    var row := 0;
    while row < a.rowLength
      invariant 0 <= row <= rows
      invariant countAdditions == row * cols
      invariant a.matrix != dest.matrix ==> x == Window(a, rows, cols)
      invariant b.matrix != dest.matrix ==> y == Window(b, rows, cols)
      invariant Progress(Contents(dest.matrix), dest, rows, cols, op, x, y, before, row, 0)
    {
      var count := OperationRow(a, b, dest, op, row, x, y, before);
      countAdditions := countAdditions + count;
      row := row + 1;
    }
    res := OpResult(dest, 0, countAdditions);
    OperationWritten(dest, rows, cols, op, before, x, y);
  }

  /** The inner loop of matrixOperation: fills row `row` of dest's window
      from the same row of a and b, and reports how many operations it did. */
  method OperationRow(a: Slice, b: Slice, dest: Slice, op: Op, row: nat, ghost x: Mat, ghost y: Mat, ghost before: Mat)
    returns (count: int)
    requires Valid(a) && Covers(b, a.rowLength, a.columnLength) && Covers(dest, a.rowLength, a.columnLength)
    requires SafeAlias(a, dest, a.rowLength, a.columnLength) && SafeAlias(b, dest, a.rowLength, a.columnLength)
    requires row < a.rowLength
    requires Progress(Contents(dest.matrix), dest, a.rowLength, a.columnLength, op, x, y, before, row, 0)
    requires a.matrix == dest.matrix ==> x == Block(before, a.rowStart, a.columnStart, a.rowLength, a.columnLength)
    requires a.matrix != dest.matrix ==> x == Window(a, a.rowLength, a.columnLength)
    requires b.matrix == dest.matrix ==> y == Block(before, b.rowStart, b.columnStart, a.rowLength, a.columnLength)
    requires b.matrix != dest.matrix ==> y == Window(b, a.rowLength, a.columnLength)
    modifies dest.matrix
    ensures count == a.columnLength
    ensures Progress(Contents(dest.matrix), dest, a.rowLength, a.columnLength, op, x, y, before, row + 1, 0)
  {
    ghost var rows, cols := a.rowLength, a.columnLength;
    count := 0;
    var column := 0;
    while column < a.columnLength
      invariant 0 <= column <= cols
      invariant count == column
      invariant Progress(Contents(dest.matrix), dest, rows, cols, op, x, y, before, row, column)
    {
      OperationCell(a, b, dest, op, row, column, x, y, before);
      count := count + 1;
      column := column + 1;
    }
    ProgressNextRow(Contents(dest.matrix), dest, rows, cols, op, x, y, before, row);
  }

  /** The body of matrixOperation's inner loop: one cell of dest's window
      from the same cells of a and b. */
  method OperationCell(a: Slice, b: Slice, dest: Slice, op: Op, row: nat, column: nat,
                       ghost x: Mat, ghost y: Mat, ghost before: Mat)
    requires Valid(a) && Covers(b, a.rowLength, a.columnLength) && Covers(dest, a.rowLength, a.columnLength)
    requires SafeAlias(a, dest, a.rowLength, a.columnLength) && SafeAlias(b, dest, a.rowLength, a.columnLength)
    requires row < a.rowLength && column < a.columnLength
    requires Progress(Contents(dest.matrix), dest, a.rowLength, a.columnLength, op, x, y, before, row, column)
    requires a.matrix == dest.matrix ==> x == Block(before, a.rowStart, a.columnStart, a.rowLength, a.columnLength)
    requires a.matrix != dest.matrix ==> x == Window(a, a.rowLength, a.columnLength)
    requires b.matrix == dest.matrix ==> y == Block(before, b.rowStart, b.columnStart, a.rowLength, a.columnLength)
    requires b.matrix != dest.matrix ==> y == Window(b, a.rowLength, a.columnLength)
    modifies dest.matrix
    ensures Progress(Contents(dest.matrix), dest, a.rowLength, a.columnLength, op, x, y, before, row, column + 1)
  {
    ghost var rows, cols := a.rowLength, a.columnLength;
    SourceCell(a, dest, rows, cols, op, x, y, before, row, column, x);
    SourceCell(b, dest, rows, cols, op, x, y, before, row, column, y);
    var elementResult := Apply(op, Get(a, row, column), Get(b, row, column));
    ghost var current := Contents(dest.matrix);
    Set(dest, row, column, elementResult);
    ProgressAdvance(current, dest, rows, cols, op, x, y, before, row, column);
  }

  /** Cell (r, c) of the window comes before (row, column) in row-major
      order. */
  predicate Done(r: int, c: int, row: nat, column: nat)
  {
    r < row || (r == row && c < column)
  }

  /** The buffer contents m at step (row, column) of matrixOperation: cells
      of dest's window already visited hold op applied to x and y, every other
      cell still holds its value in before. */
  predicate Progress(m: Mat, dest: Slice, rows: nat, cols: nat, op: Op, x: Mat, y: Mat, before: Mat, row: nat, column: nat)
  {
    && Covers(dest, rows, cols) && IsMat(x, rows, cols) && IsMat(y, rows, cols)
    && IsMat(m, dest.matrix.Length0, dest.matrix.Length1) && IsMat(before, dest.matrix.Length0, dest.matrix.Length1)
    && forall i, j :: 0 <= i < dest.matrix.Length0 && 0 <= j < dest.matrix.Length1 ==>
         m[i][j] == if InWindow(dest, rows, cols, i, j) && Done(i - dest.rowStart, j - dest.columnStart, row, column)
                    then Apply(op, x[i - dest.rowStart][j - dest.columnStart], y[i - dest.rowStart][j - dest.columnStart])
                    else before[i][j]
  }

  /** Writing the next cell in row-major order advances Progress by one. */
  lemma ProgressAdvance(m: Mat, dest: Slice, rows: nat, cols: nat, op: Op, x: Mat, y: Mat, before: Mat, row: nat, column: nat)
    requires row < rows && column < cols
    requires Progress(m, dest, rows, cols, op, x, y, before, row, column)
    ensures Progress(m[dest.rowStart + row := m[dest.rowStart + row][dest.columnStart + column := Apply(op, x[row][column], y[row][column])]],
                     dest, rows, cols, op, x, y, before, row, column + 1)
  {
  }

  /** Finishing a row is the same step as starting the next one. */
  lemma ProgressNextRow(m: Mat, dest: Slice, rows: nat, cols: nat, op: Op, x: Mat, y: Mat, before: Mat, row: nat)
    requires Progress(m, dest, rows, cols, op, x, y, before, row, cols)
    ensures Progress(m, dest, rows, cols, op, x, y, before, row + 1, 0)
  {
  }

  /** Under SafeAlias, the source cell read at step (row, column) of
      matrixOperation still holds its value from before the loops. */
  lemma SourceCell(src: Slice, dest: Slice, rows: nat, cols: nat, op: Op, x: Mat, y: Mat, before: Mat,
                   row: nat, column: nat, v: Mat)
    requires SafeAlias(src, dest, rows, cols) && row < rows && column < cols
    requires Covers(src, rows, cols)
    requires Progress(Contents(dest.matrix), dest, rows, cols, op, x, y, before, row, column)
    requires src.matrix == dest.matrix ==> v == Block(before, src.rowStart, src.columnStart, rows, cols)
    requires src.matrix != dest.matrix ==> v == Window(src, rows, cols)
    ensures Get(src, row, column) == v[row][column]
  {
    if src.matrix == dest.matrix {
      var i, j := src.rowStart + row, src.columnStart + column;
      assert Contents(dest.matrix)[i][j] == Get(src, row, column);
      if InWindow(dest, rows, cols, i, j) {
        assert src.rowStart == dest.rowStart && src.columnStart == dest.columnStart;
      }
    }
  }

  /** The outcome of the loops of matrixOperation, restated on the window
      and on the whole buffer. */
  lemma OperationWritten(dest: Slice, rows: nat, cols: nat, op: Op, before: Mat, x: Mat, y: Mat)
    requires Progress(Contents(dest.matrix), dest, rows, cols, op, x, y, before, rows, 0)
    ensures Window(dest, rows, cols) == Combine(op, x, y, rows, cols)
    ensures Contents(dest.matrix) == Paste(before, dest.rowStart, dest.columnStart, Window(dest, rows, cols), rows, cols)
  {
    var m := Contents(dest.matrix);
    forall r, c | 0 <= r < rows && 0 <= c < cols
      ensures Window(dest, rows, cols)[r][c] == Combine(op, x, y, rows, cols)[r][c]
    {
      assert InWindow(dest, rows, cols, dest.rowStart + r, dest.columnStart + c);
      assert m[dest.rowStart + r][dest.columnStart + c] == Get(dest, r, c);
    }
    MatEq(Window(dest, rows, cols), Combine(op, x, y, rows, cols), rows, cols);
    MatEq(m, Paste(before, dest.rowStart, dest.columnStart, Window(dest, rows, cols), rows, cols),
          dest.matrix.Length0, dest.matrix.Length1);
  }

  /** matrixAddition into a new buffer of a's extents. */
  method MatrixAddition(a: Slice, b: Slice) returns (res: OpResult)
    requires Valid(a) && a.rowLength > 0 && Covers(b, a.rowLength, a.columnLength)
    ensures fresh(res.result.matrix) && res.result.matrix.Length0 == a.rowLength && res.result.matrix.Length1 == a.columnLength
    ensures res.result == FullSlice(res.result.matrix)
    ensures View(res.result) == Combine(Add, View(a), Window(b, a.rowLength, a.columnLength), a.rowLength, a.columnLength)
    ensures res.countMultiplications == 0 && res.countAdditions == a.rowLength * a.columnLength
  {
    var m := new int[a.rowLength, a.columnLength];
    res := MatrixOperation(a, b, FullSlice(m), Add);
  }

  /** matrixSubtraction into a new buffer of a's extents. */
  method MatrixSubtraction(a: Slice, b: Slice) returns (res: OpResult)
    requires Valid(a) && a.rowLength > 0 && Covers(b, a.rowLength, a.columnLength)
    ensures fresh(res.result.matrix) && res.result.matrix.Length0 == a.rowLength && res.result.matrix.Length1 == a.columnLength
    ensures res.result == FullSlice(res.result.matrix)
    ensures View(res.result) == Combine(Sub, View(a), Window(b, a.rowLength, a.columnLength), a.rowLength, a.columnLength)
    ensures res.countMultiplications == 0 && res.countAdditions == a.rowLength * a.columnLength
  {
    var m := new int[a.rowLength, a.columnLength];
    res := MatrixOperation(a, b, FullSlice(m), Sub);
  }

  /** matrixAddition into an existing window. */
  method MatrixAdditionInto(a: Slice, b: Slice, dest: Slice) returns (res: OpResult)
    requires Valid(a) && Covers(b, a.rowLength, a.columnLength) && Covers(dest, a.rowLength, a.columnLength)
    requires SafeAlias(a, dest, a.rowLength, a.columnLength) && SafeAlias(b, dest, a.rowLength, a.columnLength)
    modifies dest.matrix
    ensures res == OpResult(dest, 0, a.rowLength * a.columnLength)
    ensures Window(dest, a.rowLength, a.columnLength)
         == Combine(Add, old(View(a)), old(Window(b, a.rowLength, a.columnLength)), a.rowLength, a.columnLength)
    ensures Contents(dest.matrix)
         == Paste(old(Contents(dest.matrix)), dest.rowStart, dest.columnStart,
                  Window(dest, a.rowLength, a.columnLength), a.rowLength, a.columnLength)
  {
    res := MatrixOperation(a, b, dest, Add);
  }

  /** matrixSubtraction into an existing window. */
  method MatrixSubtractionInto(a: Slice, b: Slice, dest: Slice) returns (res: OpResult)
    requires Valid(a) && Covers(b, a.rowLength, a.columnLength) && Covers(dest, a.rowLength, a.columnLength)
    requires SafeAlias(a, dest, a.rowLength, a.columnLength) && SafeAlias(b, dest, a.rowLength, a.columnLength)
    modifies dest.matrix
    ensures res == OpResult(dest, 0, a.rowLength * a.columnLength)
    ensures Window(dest, a.rowLength, a.columnLength)
         == Combine(Sub, old(View(a)), old(Window(b, a.rowLength, a.columnLength)), a.rowLength, a.columnLength)
    ensures Contents(dest.matrix)
         == Paste(old(Contents(dest.matrix)), dest.rowStart, dest.columnStart,
                  Window(dest, a.rowLength, a.columnLength), a.rowLength, a.columnLength)
  {
    res := MatrixOperation(a, b, dest, Sub);
  }
}
