# Strassen matrix multiplication, modelled in Dafny

A model of an integer matrix-multiplication engine (`App.java`). The engine multiplies two square matrices both naively and by Strassen's algorithm, and counts the scalar operations each one performs. It is built on a zero-copy view type:

- A `MatrixSlice` is a window `(matrix, rowStart, columnStart, rowLength, columnLength)` over a shared backing buffer.
- Strassen's recursion splits its operands into quadrant slices without copying.
- It forms the ten sums and differences S1..S10 in fresh buffers.
- It recurses seven times for P1..P7.
- It assembles the four quadrants C11..C22 in place, through slices of one fresh result buffer. Some of these writes alias a source window, e.g. `C11 := C11 - P2`.

The model is imperative, like the source:

- The backing buffer is an `array2<int>`.
- Slices are values holding a reference to it (`Slices.Slice`).
- Reading and writing go through `Get` and `Set`.
- The element-wise operation and the naive product are methods with loops; Strassen's product is a recursive method with straight-line steps, as in the source.

Every method is proved against pure specifications on `seq<seq<int>>`, i.e. matrix values (module `Matrices`): `Block`, `Paste`, `Combine` (element-wise `Add`/`Sub`), `Dot` and `MatMul`. The main results are:

- `matrixOperation` writes, into its destination window, `op` applied cell by cell to the two source windows as they were before the call. This still holds when the destination is one of the sources. Nothing else in the destination buffer changes.
- `squareMatrixMultiply` returns the mathematical product. Its multiplication count is rows × columns × inner dimension.
- `strassenMultiply` returns the mathematical product of two n × n slices, where n is a power of two. It writes nothing but buffers it allocates itself: it has no `modifies` clause, so its operands are untouched. It performs `MultCount(n)` multiplications and `AddCount(n)` additions:
  - `MultCount(n) = 7·MultCount(n/2)`, which is `7^k` for `n = 2^k`.
  - `AddCount(n) = 7·AddCount(n/2) + 18·(n/2)²`, which is `6·(7^k − 4^k)`.
- The counts do not depend on the matrix contents.
- Strassen's multiplication count never exceeds the naive `n³`, and is strictly smaller from order 2 on.

Modules, in dependency order:

- `Matrices`: the matrix-value specification.
- `Slices`: `MatrixSlice`, `get`, `set`, `fullMatrixSlize`.
- `StrassenAlgebra`: the one-level Strassen identities and the count recurrences with their closed forms.
- `Operations`: `MatrixOperationResult`, `matrixOperation` and its four wrappers.
- `NaiveProduct`: `squareMatrixMultiply`.
- `Strassen`: `strassenMultiply` and its overloads.
- `Execute`: the two products computed side by side, as `execute` does.

Some of the source's loops are split into helper methods so that each proof stays small. The helpers perform the same cell operations in the same order. The counters are the exception: instead of one shared counter incremented in the innermost loop, each helper returns its own count and the caller adds them up, one row or one cell at a time.

- `matrixOperation`'s inner loop is `OperationRow` and its loop body is `OperationCell`.
- `squareMatrixMultiply`'s middle and inner loops are `ProductRow` and `CellProduct`.
- Steps 2, 3 and 4 of `strassenMultiply` are `StrassenSums`, `StrassenProducts` and `StrassenAssemble`.

## Model

| member | source | states |
|---|---|---|
| Slices.GetView | App.java:38-40 | `get` inside the slice's extents reads the matrix the slice denotes at (row, column), which is the buffer's cell at (rowStart + row, columnStart + column) |
| Slices.SubSlice | App.java:34-36 | The second constructor: shares the parent's buffer; the offsets are the parent's plus the given ones; the extents are taken as given, not clipped to the parent's |
| Slices.SubSliceGet | App.java:34-40 | Reading a sub-slice at (row, column) reads its parent at (rowStart + row, columnStart + column) |
| Slices.SubSliceView | App.java:34-36 | A sub-slice inside its parent's extents denotes exactly the corresponding block of the parent's matrix |
| Slices.NestedSubSliceView | App.java:34-36 | A sub-slice of a sub-slice, the nesting each recursion level creates, denotes the block of the outermost slice's matrix at the summed offsets |
| Slices.Set | App.java:42-44 | Writes the value at (rowStart + row, columnStart + column) and leaves every other cell of the backing buffer unchanged (also stated as a point update of the buffer's contents) |
| Slices.FullSlice | App.java:49-52 | Spans the whole buffer from (0, 0); needs a first row, as the source reads `matrix[0].length` |
| Slices.FullSliceView | App.java:49-52 | The full slice denotes the buffer's entire contents |
| Operations.MatrixOperation | App.java:305-322 | The destination window becomes `op` applied cell by cell to the pre-call windows of both sources, also when the destination is one of the sources at the same offsets (the `C11 := C11 - P2` calls). Every buffer cell outside the window is unchanged. The result carries the destination, 0 multiplications and rowLength × columnLength additions |
| Operations.OperationRow | App.java:310-319 | One pass of the column loop completes row `row` of the window and advances the addition count by columnLength; earlier rows and the rest of the buffer keep their values |
| Operations.OperationCell | App.java:312-318 | One loop body writes cell (row, column) as `op` of the two source cells and advances the row-major progress by one cell |
| Operations.SourceCell | App.java:312-314 | Under the aliasing condition, the source cell read at step (row, column) still holds its value from before the loops |
| Operations.OperationWritten | App.java:309-320 | When the loops finish, the window equals the element-wise combination and the buffer equals the old buffer with that window pasted in |
| Operations.MatrixAddition | App.java:325-327 | Returns a full slice of a fresh rowLength × columnLength buffer holding a + b, with 0 multiplications and rowLength × columnLength additions |
| Operations.MatrixSubtraction | App.java:330-332 | Returns a full slice of a fresh rowLength × columnLength buffer holding a − b, with the same counts |
| Operations.MatrixAdditionInto | App.java:335-337 | Writes a + b into the destination window in place; the rest of the buffer is unchanged; same counts |
| Operations.MatrixSubtractionInto | App.java:340-342 | Writes a − b into the destination window in place; the rest of the buffer is unchanged; same counts |
| NaiveProduct.SquareMatrixMultiply | App.java:175-194 | Returns a full slice of a fresh rowLength(a) × columnLength(b) buffer holding the mathematical product of a's window and the matching window of b. Multiplications = rowLength(a) × columnLength(b) × columnLength(a); additions = 0 |
| NaiveProduct.ProductRow | App.java:182-190 | The column loop fills row `row` with its dot products, uses columnLength(b) × columnLength(a) multiplications, and leaves every other row unchanged |
| NaiveProduct.CellProduct | App.java:184-189 | Resetting a cell and accumulating a's row times b's column term by term leaves the dot product there, after columnLength(a) multiplications, with every other cell unchanged |
| Strassen.StrassenMultiply | App.java:197-287 | For n × n operands, n a power of two: returns a full slice of a fresh n × n buffer holding the mathematical product, with MultCount(n) multiplications and AddCount(n) additions; the operands are not written |
| Strassen.ScalarProduct | App.java:203-206 | Base case: the 1 × 1 buffer holding A(0,0)·B(0,0) is the product of the 1 × 1 operands |
| Strassen.QuadrantViews | App.java:213-221 | The four quadrant slices of an even-order slice are valid and denote the four blocks of its matrix |
| Strassen.StrassenSums | App.java:224-236 | S1..S10 are fresh h × h full slices holding exactly the source's ten sums and differences of quadrants (S1 = B12 − B22, …, S10 = B11 + B12), with 10·h² additions |
| Strassen.StrassenProducts | App.java:239-251 | P1..P7 are fresh h × h full slices holding the seven products (P1 = A11·S1, P2 = S2·B22, …, P7 = S9·S10); together they use 7·MultCount(h) multiplications and 7·AddCount(h) additions |
| Strassen.StrassenAssemble | App.java:255-284 | Writing in place into the four quadrant slices yields C11 = P5 + P4 − P2 + P6, C12 = P1 + P2, C21 = P3 + P4 and C22 = P5 + P1 − P3 − P7, with 8·h² additions |
| Strassen.KeepsOtherQuadrants | App.java:278-283 | Writing the C22 quadrant leaves the other three quadrants as they were |
| Strassen.StrassenMultiplyResults | App.java:290-292 | The overload on two operation results multiplies their result slices, with the same guarantees |
| Strassen.StrassenMultiplySliceByResult | App.java:295-297 | The overload on a slice and an operation result, with the same guarantees |
| Strassen.StrassenMultiplyResultBySlice | App.java:300-302 | The overload on an operation result and a slice, with the same guarantees |
| StrassenAlgebra.StrassenStep | App.java:224-284 | With the seven products taken exactly, each assembled quadrant equals the corresponding quadrant of the product |
| StrassenAlgebra.StrassenScheme | App.java:224-284 | A matrix assembled as in step 4, from products and sums formed as in steps 2 and 3, is the product of the two operands |
| StrassenAlgebra.MultCountClosedForm | App.java:239-248 | The multiplication count recurrence gives exactly 7^k for order 2^k |
| StrassenAlgebra.AddCountClosedForm | App.java:224-284 | The addition count recurrence gives exactly 6·(7^k − 4^k) for order 2^k |
| StrassenAlgebra.MultCountBelowCube | App.java:239-248 | Strassen's multiplication count is at most n³, and below n³ for n > 1 |
| Matrices.QuadrantsDetermine | App.java:255-258 | The four quadrant windows cover the result: two matrices that agree on all four are equal |
| Matrices.BlockPasteDisjoint | App.java:255-258 | Writing one quadrant window leaves every window disjoint from it unchanged |
| Matrices.MatMulQuadrant | App.java:213-221 | A quadrant of the product is the sum of the two half-order products of the matching quadrants |
| Matrices.MatMulIdentity | App.java:175-194 | The product with the identity on either side is the other operand |
| Matrices.MatMulZero | App.java:175-194 | The product with a zero matrix on either side is the zero matrix |
| Execute.MultiplyBoth | App.java:113-117 | Both algorithms return the same matrix, the product. The counts it hands to the report are: naive n³ multiplications and 0 additions; Strassen MultCount(n) multiplications and AddCount(n) additions. Strassen's multiplication count is no larger than the naive one, and smaller from order 2 on. Strassen's result with the identity on either side is the other operand. With a zero operand, both results are zero |
| Execute.TwoByTwoProduct | App.java:113-117 | [[1,2],[3,4]] times [[5,6],[7,8]] is [[19,22],[43,50]], and Strassen's counts for order 2 are 7 multiplications and 18 additions |
| Execute.OneByOneProduct | App.java:113-117 | [[3]] times [[4]] is [[12]], and Strassen's counts for order 1 are 1 multiplication and 0 additions |
| Execute.OneByOneScenario | App.java:113-117 | Running both algorithms on new 1 × 1 buffers holding [[3]] and [[4]] yields [[12]] from each, with 1 multiplication and 0 additions for both |
| Execute.TwoByTwoScenario | App.java:113-117 | Running both algorithms on new 2 × 2 buffers holding [[1,2],[3,4]] and [[5,6],[7,8]] yields [[19,22],[43,50]] from each. The naive product reports 8 multiplications and 0 additions; Strassen's reports 7 multiplications and 18 additions |

## Left out

- Reading the input file, writing the report, benchmark generation and `main` (App.java:78-172, 344-382) are I/O around the engine and are not modelled. `Execute.MultiplyBoth` takes the two matrices as parameters.
- Java's 32-bit `int`: cells, products and sums are mathematical integers, so overflow wrap-around in cell arithmetic is not modelled. The same holds for the `int` counter of `squareMatrixMultiply` and the `long` counters.
- `MatrixOperationResult`'s `operationName` label and its `matrixA`/`matrixB` back-references are dropped. They are only used for reporting.
- The `IntBinaryOperator` lambdas are modelled as the two-value `Op` (`Add`, `Sub`).
- The `int[][]` buffers are modelled as rectangular `array2<int>`. Jagged rows, and rows shared between arrays, are not represented; the source never creates them.
- Exceptions the source would raise are preconditions here, not error results. This covers a window that does not fit its buffer and an empty buffer passed to `fullMatrixSlize`. The engine never produces either.
- Offsets and lengths are `nat`. Java's `int` fields could hold negative values: the second constructor accepts a negative relative offset, and `get` still works while the summed index is non-negative. A negative length makes `matrixOperation` run no iterations, and makes only the allocating calls throw. The engine never creates negative offsets or lengths, so these behaviours are not modelled.
- Operations.MatrixOperation: requires that each source window lies in another buffer, sits at exactly the destination's offsets, or does not overlap the destination. A partial overlap would make the outcome depend on the visiting order. The program never creates one: its aliased calls all write a quadrant onto itself.
- Operations.MatrixAddition: requires a first row (rowLength > 0), because the fresh buffer is wrapped by `fullMatrixSlize`, which reads `matrix[0]`. The same holds for Operations.MatrixSubtraction and NaiveProduct.SquareMatrixMultiply.
- Strassen.StrassenMultiply: requires two n × n operands with n a power of two. On other orders the source does not validate its inputs. It still terminates, because `rowLength / 2` always reaches the 1 × 1 base case, but the result is in general not the product. For n = 3, only the top-left 2 × 2 block of the zero-initialised result is written: it receives the product of the operands' top-left 2 × 2 blocks. The reported counts are 7 multiplications and 18 additions. That case is not modelled.
- Seven of the source's loops and steps are modelled as separate helper methods, listed above. They perform the same cell operations in the same order. The source's single incremented counter becomes per-row and per-cell counts, which the callers add up; the totals are the same.
