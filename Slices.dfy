/** MatrixSlice: a rectangular window over a backing two-dimensional buffer.
    All reads and writes go through the window's offsets, so algorithms can
    work on a quadrant of a larger matrix in place, without copying it. */
module Slices {
  import opened Matrices

  /** The source's fields are never reassigned after construction, so a slice
      is a value; the backing buffer it points at is shared and mutable. The
      datatype constructor is the source's first constructor. */
  datatype Slice = Slice(matrix: array2<int>, rowStart: nat, columnStart: nat, rowLength: nat, columnLength: nat)

  /** The backing buffer holds a rows x cols window at the slice's offsets. */
  predicate Covers(s: Slice, rows: nat, cols: nat)
  {
    s.rowStart + rows <= s.matrix.Length0 && s.columnStart + cols <= s.matrix.Length1
  }

  /** The slice's own extents lie inside its backing buffer. */
  predicate Valid(s: Slice)
  {
    Covers(s, s.rowLength, s.columnLength)
  }

  /** The whole backing buffer as a matrix value. */
  function Contents(m: array2<int>): (c: Mat)
    reads m
    ensures IsMat(c, m.Length0, m.Length1)
    ensures forall i, j :: 0 <= i < m.Length0 && 0 <= j < m.Length1 ==> c[i][j] == m[i, j]
  {
    seq(m.Length0, i requires 0 <= i < m.Length0 reads m =>
      seq(m.Length1, j requires 0 <= j < m.Length1 reads m => m[i, j]))
  }

  /** The cell at logical position (row, column) of the slice. */
  function Get(s: Slice, row: nat, column: nat): (v: int)
    reads s.matrix
    requires s.rowStart + row < s.matrix.Length0 && s.columnStart + column < s.matrix.Length1
  {
    s.matrix[s.rowStart + row, s.columnStart + column]
  }

  /** Writes the cell at logical position (row, column) and nothing else. */
  method Set(s: Slice, row: nat, column: nat, value: int)
    requires s.rowStart + row < s.matrix.Length0 && s.columnStart + column < s.matrix.Length1
    modifies s.matrix
    ensures s.matrix[s.rowStart + row, s.columnStart + column] == value
    ensures forall i, j ::
      0 <= i < s.matrix.Length0 && 0 <= j < s.matrix.Length1 && (i != s.rowStart + row || j != s.columnStart + column)
      ==> s.matrix[i, j] == old(s.matrix[i, j])
    ensures Contents(s.matrix)
         == old(Contents(s.matrix))[s.rowStart + row := old(Contents(s.matrix))[s.rowStart + row][s.columnStart + column := value]]
  {
    ghost var before := Contents(s.matrix);
    s.matrix[s.rowStart + row, s.columnStart + column] := value;
    MatEq(Contents(s.matrix), before[s.rowStart + row := before[s.rowStart + row][s.columnStart + column := value]],
          s.matrix.Length0, s.matrix.Length1);
  }

  /** The rows x cols window of the slice, starting at its offsets. */
  function Window(s: Slice, rows: nat, cols: nat): (w: Mat)
    reads s.matrix
    requires Covers(s, rows, cols)
    ensures IsMat(w, rows, cols)
    ensures forall i, j :: 0 <= i < rows && 0 <= j < cols ==> w[i][j] == Get(s, i, j)
  {
    Block(Contents(s.matrix), s.rowStart, s.columnStart, rows, cols)
  }

  /** The matrix the slice denotes: its window of its own extents. */
  function View(s: Slice): (v: Mat)
    reads s.matrix
    requires Valid(s)
    ensures IsMat(v, s.rowLength, s.columnLength)
  {
    Window(s, s.rowLength, s.columnLength)
  }

  /** Reading a slice inside its extents reads the matrix it denotes, which
      is the buffer's contents at the shifted position. */
  lemma GetView(s: Slice, row: nat, column: nat)
    requires Valid(s) && row < s.rowLength && column < s.columnLength
    ensures Get(s, row, column) == View(s)[row][column]
    ensures Get(s, row, column) == Contents(s.matrix)[s.rowStart + row][s.columnStart + column]
  {
  }

  /** The source's second constructor: a slice of a slice. The offsets are
      relative to the parent's, the backing buffer is the parent's, and the
      extents are taken as given, not clipped to the parent's. */
  function SubSlice(parent: Slice, rowStart: nat, columnStart: nat, rowLength: nat, columnLength: nat): (s: Slice)
    ensures s.matrix == parent.matrix
    ensures s.rowStart == parent.rowStart + rowStart && s.columnStart == parent.columnStart + columnStart
    ensures s.rowLength == rowLength && s.columnLength == columnLength
  {
    Slice(parent.matrix, rowStart + parent.rowStart, columnStart + parent.columnStart, rowLength, columnLength)
  }

  /** Reading a sub-slice reads its parent at the shifted position. */
  lemma SubSliceGet(parent: Slice, rowStart: nat, columnStart: nat, rowLength: nat, columnLength: nat, row: nat, column: nat)
    requires parent.rowStart + rowStart + row < parent.matrix.Length0
    requires parent.columnStart + columnStart + column < parent.matrix.Length1
    ensures Get(SubSlice(parent, rowStart, columnStart, rowLength, columnLength), row, column)
         == Get(parent, rowStart + row, columnStart + column)
  {
  }

  /** A sub-slice inside its parent's extents denotes the corresponding block
      of the parent's matrix. */
  lemma SubSliceView(parent: Slice, rowStart: nat, columnStart: nat, rowLength: nat, columnLength: nat)
    requires Valid(parent)
    requires rowStart + rowLength <= parent.rowLength && columnStart + columnLength <= parent.columnLength
    ensures Valid(SubSlice(parent, rowStart, columnStart, rowLength, columnLength))
    ensures View(SubSlice(parent, rowStart, columnStart, rowLength, columnLength))
         == Block(View(parent), rowStart, columnStart, rowLength, columnLength)
  {
    var s := SubSlice(parent, rowStart, columnStart, rowLength, columnLength);
    MatEq(View(s), Block(View(parent), rowStart, columnStart, rowLength, columnLength), rowLength, columnLength);
  }

  /** Sub-slicing a sub-slice, as each level of the recursion does to the
      quadrants of the level above, denotes the block of the outermost
      slice's matrix at the summed offsets. */
  lemma NestedSubSliceView(parent: Slice, r0: nat, c0: nat, rows: nat, cols: nat,
                           r1: nat, c1: nat, rows1: nat, cols1: nat)
    requires Valid(parent)
    requires r0 + rows <= parent.rowLength && c0 + cols <= parent.columnLength
    requires r1 + rows1 <= rows && c1 + cols1 <= cols
    ensures Valid(SubSlice(SubSlice(parent, r0, c0, rows, cols), r1, c1, rows1, cols1))
    ensures View(SubSlice(SubSlice(parent, r0, c0, rows, cols), r1, c1, rows1, cols1))
         == Block(View(parent), r0 + r1, c0 + c1, rows1, cols1)
  {
    var inner := SubSlice(parent, r0, c0, rows, cols);
    SubSliceView(parent, r0, c0, rows, cols);
    SubSliceView(inner, r1, c1, rows1, cols1);
    BlockOfBlock(View(parent), r0, c0, rows, cols, r1, c1, rows1, cols1);
  }

  /** fullMatrixSlize: a slice spanning the whole buffer. The source reads the
      column count off the buffer's first row, so the buffer needs one. */
  function FullSlice(m: array2<int>): (s: Slice)
    requires m.Length0 > 0
    ensures Valid(s) && s.matrix == m
    ensures s.rowStart == 0 && s.columnStart == 0
    ensures s.rowLength == m.Length0 && s.columnLength == m.Length1
  {
    Slice(m, 0, 0, m.Length0, m.Length1)
  }

  /** The full slice denotes the buffer's whole contents. */
  lemma FullSliceView(m: array2<int>)
    requires m.Length0 > 0
    ensures View(FullSlice(m)) == Contents(m)
  {
    MatEq(View(FullSlice(m)), Contents(m), m.Length0, m.Length1);
  }
}
