/** strassenMultiply and its three unwrap overloads: Strassen's recursive
    product over quadrant slices, with its multiplication and addition
    counts. */
module Strassen {
  import opened Matrices
  import opened Slices
  import opened StrassenAlgebra
  import opened Operations

  /** Step 4 of strassenMultiply: the four quadrants of the result buffer
      assembled from the seven half-order products, in the source's order of
      additions and subtractions, each written in place into its quadrant. */
  method StrassenAssemble(result: array2<int>, h: nat, p1: Slice, p2: Slice, p3: Slice, p4: Slice, p5: Slice, p6: Slice, p7: Slice,
                           ghost q1: Mat, ghost q2: Mat, ghost q3: Mat, ghost q4: Mat, ghost q5: Mat, ghost q6: Mat, ghost q7: Mat)
    returns (countAdditions: int)
    requires h > 0 && result.Length0 == 2 * h && result.Length1 == 2 * h
    requires HalfOrder(p1, h, result) && HalfOrder(p2, h, result) && HalfOrder(p3, h, result) && HalfOrder(p4, h, result)
    requires HalfOrder(p5, h, result) && HalfOrder(p6, h, result) && HalfOrder(p7, h, result)
    requires View(p1) == q1 && View(p2) == q2 && View(p3) == q3 && View(p4) == q4
    requires View(p5) == q5 && View(p6) == q6 && View(p7) == q7
    modifies result
    ensures countAdditions == 8 * (h * h)
    ensures IsMat(Contents(result), 2 * h, 2 * h) && IsAssembled(Contents(result), h, q1, q2, q3, q4, q5, q6, q7)
  {
    var c11 := Slice(result, 0, 0, h, h);
    var c12 := Slice(result, 0, h, h, h);
    var c21 := Slice(result, h, 0, h, h);
    var c22 := Slice(result, h, h, h, h);
    var resultC;

    // C11
    resultC := MatrixAdditionInto(p5, p4, c11);
    countAdditions := resultC.countAdditions;
    resultC := MatrixSubtractionInto(c11, p2, c11);
    countAdditions := countAdditions + resultC.countAdditions;
    resultC := MatrixAdditionInto(c11, p6, c11);
    countAdditions := countAdditions + resultC.countAdditions;

    // C12
    ghost var m := Contents(result);
    resultC := MatrixAdditionInto(p1, p2, c12);
    countAdditions := countAdditions + resultC.countAdditions;
    BlockPasteDisjoint(m, 0, h, Window(c12, h, h), h, h, 0, 0, h, h);

    // C21
    m := Contents(result);
    resultC := MatrixAdditionInto(p3, p4, c21);
    countAdditions := countAdditions + resultC.countAdditions;
    BlockPasteDisjoint(m, h, 0, Window(c21, h, h), h, h, 0, 0, h, h);
    BlockPasteDisjoint(m, h, 0, Window(c21, h, h), h, h, 0, h, h, h);

    // C22
    m := Contents(result);
    resultC := MatrixAdditionInto(p5, p1, c22);
    countAdditions := countAdditions + resultC.countAdditions;
    KeepsOtherQuadrants(m, h, Window(c22, h, h));
    m := Contents(result);
    resultC := MatrixSubtractionInto(c22, p3, c22);
    countAdditions := countAdditions + resultC.countAdditions;
    KeepsOtherQuadrants(m, h, Window(c22, h, h));
    m := Contents(result);
    resultC := MatrixSubtractionInto(c22, p7, c22);
    countAdditions := countAdditions + resultC.countAdditions;
    KeepsOtherQuadrants(m, h, Window(c22, h, h));
  }

  /** The slice is an h x h matrix of its own, in a buffer other than the
      result being assembled. */
  predicate HalfOrder(p: Slice, h: nat, result: array2<int>)
  {
    HasOrder(p, h) && p.matrix != result
  }

  /** Writing the bottom-right quadrant keeps the other three. */
  lemma KeepsOtherQuadrants(m: Mat, h: nat, x: Mat)
    requires IsMat(m, 2 * h, 2 * h) && IsMat(x, h, h)
    ensures Block(Paste(m, h, h, x, h, h), 0, 0, h, h) == Block(m, 0, 0, h, h)
    ensures Block(Paste(m, h, h, x, h, h), 0, h, h, h) == Block(m, 0, h, h, h)
    ensures Block(Paste(m, h, h, x, h, h), h, 0, h, h) == Block(m, h, 0, h, h)
  {
    BlockPasteDisjoint(m, h, h, x, h, h, 0, 0, h, h);
    BlockPasteDisjoint(m, h, h, x, h, h, 0, h, h, h);
    BlockPasteDisjoint(m, h, h, x, h, h, h, 0, h, h);
  }

  /** Both operands are n x n matrices of the same power-of-two order n. */
  predicate SquarePow2(a: Slice, b: Slice)
  {
    && Valid(a) && Valid(b) && IsPow2(a.rowLength)
    && a.columnLength == a.rowLength && b.rowLength == a.rowLength && b.columnLength == a.rowLength
  }

  /** res holds the product of a and b in a full slice of its own buffer,
      with Strassen's operation counts for their order. */
  predicate IsProduct(res: OpResult, a: Slice, b: Slice)
    requires SquarePow2(a, b)
    reads a.matrix, b.matrix, res.result.matrix
  {
    && res.result.matrix.Length0 == a.rowLength && res.result.matrix.Length1 == a.rowLength
    && res.result == FullSlice(res.result.matrix)
    && View(res.result) == MatMul(View(a), View(b), a.rowLength, a.rowLength, a.rowLength)
    && res.countMultiplications == MultCount(a.rowLength)
    && res.countAdditions == AddCount(a.rowLength)
  }

  /** strassenMultiply: Strassen's product of two n x n slices, n a power of
      two, into a new n x n buffer. Steps 2 and 3 are StrassenSums and
      StrassenProducts; step 4 is StrassenAssemble. */
  method StrassenMultiply(a: Slice, b: Slice) returns (res: OpResult)
    requires SquarePow2(a, b)
    decreases a.rowLength, 2
    ensures fresh(res.result.matrix) && IsProduct(res, a, b)
  {
    ghost var n, x, y := a.rowLength, View(a), View(b);
    var result := new int[a.rowLength, b.columnLength];

    if a.rowLength == 1 {
      result[0, 0] := Get(a, 0, 0) * Get(b, 0, 0);
      res := OpResult(FullSlice(result), 1, 0);
      ScalarProduct(a, b, result);
      return;
    }

    var halfN := a.rowLength / 2;

    // Step 1
    var a11 := SubSlice(a, 0, 0, halfN, halfN);
    var a12 := SubSlice(a, 0, halfN, halfN, halfN);
    var a21 := SubSlice(a, halfN, 0, halfN, halfN);
    var a22 := SubSlice(a, halfN, halfN, halfN, halfN);
    var b11 := SubSlice(b, 0, 0, halfN, halfN);
    var b12 := SubSlice(b, 0, halfN, halfN, halfN);
    var b21 := SubSlice(b, halfN, 0, halfN, halfN);
    var b22 := SubSlice(b, halfN, halfN, halfN, halfN);
    QuadrantViews(a, halfN);
    QuadrantViews(b, halfN);
    ghost var x11, x12, x21, x22 := View(a11), View(a12), View(a21), View(a22);
    ghost var y11, y12, y21, y22 := View(b11), View(b12), View(b21), View(b22);

    // Step 2
    var s1, s2, s3, s4, s5, s6, s7, s8, s9, s10, sumAdditions :=
      StrassenSums(a11, a12, a21, a22, b11, b12, b21, b22, halfN, x11, x12, x21, x22, y11, y12, y21, y22);
    ghost var t1, t2, t3, t4, t5 := View(s1.result), View(s2.result), View(s3.result), View(s4.result), View(s5.result);
    ghost var t6, t7, t8, t9, t10 := View(s6.result), View(s7.result), View(s8.result), View(s9.result), View(s10.result);

    // Step 3
    var p1, p2, p3, p4, p5, p6, p7, countMultiplications, productAdditions :=
      StrassenProducts(a11, a22, b11, b22, s1, s2, s3, s4, s5, s6, s7, s8, s9, s10, halfN,
                       x11, x22, y11, y22, t1, t2, t3, t4, t5, t6, t7, t8, t9, t10);
    ghost var q1, q2, q3, q4 := View(p1.result), View(p2.result), View(p3.result), View(p4.result);
    ghost var q5, q6, q7 := View(p5.result), View(p6.result), View(p7.result);

    // Step 4
    var assembled := StrassenAssemble(result, halfN, p1.result, p2.result, p3.result, p4.result, p5.result, p6.result, p7.result,
                                      q1, q2, q3, q4, q5, q6, q7);

    res := OpResult(FullSlice(result), countMultiplications, sumAdditions + productAdditions + assembled);
    StrassenScheme(x, y, halfN, Contents(result), x11, x12, x21, x22, y11, y12, y21, y22,
                   t1, t2, t3, t4, t5, t6, t7, t8, t9, t10, q1, q2, q3, q4, q5, q6, q7);
    FullSliceView(result);
  }

  /** The base case: a 1 x 1 buffer holding the product of the two cells
      is the product of the 1 x 1 matrices. */
  lemma ScalarProduct(a: Slice, b: Slice, result: array2<int>)
    requires HasOrder(a, 1) && HasOrder(b, 1) && result.Length0 == 1 && result.Length1 == 1
    requires result[0, 0] == Get(a, 0, 0) * Get(b, 0, 0)
    ensures View(FullSlice(result)) == MatMul(View(a), View(b), 1, 1, 1)
  {
    var x, y := View(a), View(b);
    assert x[0][0] == Get(a, 0, 0) && y[0][0] == Get(b, 0, 0);
    assert MatMul(x, y, 1, 1, 1)[0][0] == Dot(x, y, 0, 0, 1) == x[0][0] * y[0][0];
    assert View(FullSlice(result))[0][0] == result[0, 0];
    MatEq(View(FullSlice(result)), MatMul(x, y, 1, 1, 1), 1, 1);
  }

  /** The slice denotes an h x h matrix. */
  predicate HasOrder(s: Slice, h: nat)
  {
    Valid(s) && s.rowLength == h && s.columnLength == h
  }

  /** r is an h x h matrix in a full slice of its own buffer. */
  predicate IsFullOfOrder(r: OpResult, h: nat)
  {
    h > 0 && r.result.matrix.Length0 == h && r.result.matrix.Length1 == h && r.result == FullSlice(r.result.matrix)
  }

  /** Step 2 of strassenMultiply: the ten sums and differences of quadrants,
      each into a new buffer. */
  method StrassenSums(a11: Slice, a12: Slice, a21: Slice, a22: Slice, b11: Slice, b12: Slice, b21: Slice, b22: Slice, h: nat,
                      ghost x11: Mat, ghost x12: Mat, ghost x21: Mat, ghost x22: Mat,
                      ghost y11: Mat, ghost y12: Mat, ghost y21: Mat, ghost y22: Mat)
    returns (s1: OpResult, s2: OpResult, s3: OpResult, s4: OpResult, s5: OpResult,
             s6: OpResult, s7: OpResult, s8: OpResult, s9: OpResult, s10: OpResult, countAdditions: int)
    requires h > 0
    requires HasOrder(a11, h) && HasOrder(a12, h) && HasOrder(a21, h) && HasOrder(a22, h)
    requires HasOrder(b11, h) && HasOrder(b12, h) && HasOrder(b21, h) && HasOrder(b22, h)
    requires View(a11) == x11 && View(a12) == x12 && View(a21) == x21 && View(a22) == x22
    requires View(b11) == y11 && View(b12) == y12 && View(b21) == y21 && View(b22) == y22
    ensures fresh(s1.result.matrix) && fresh(s2.result.matrix) && fresh(s3.result.matrix) && fresh(s4.result.matrix)
    ensures fresh(s5.result.matrix) && fresh(s6.result.matrix) && fresh(s7.result.matrix) && fresh(s8.result.matrix)
    ensures fresh(s9.result.matrix) && fresh(s10.result.matrix)
    ensures IsFullOfOrder(s1, h) && IsFullOfOrder(s2, h) && IsFullOfOrder(s3, h) && IsFullOfOrder(s4, h)
    ensures IsFullOfOrder(s5, h) && IsFullOfOrder(s6, h) && IsFullOfOrder(s7, h) && IsFullOfOrder(s8, h)
    ensures IsFullOfOrder(s9, h) && IsFullOfOrder(s10, h)
    ensures AreSums(h, x11, x12, x21, x22, y11, y12, y21, y22,
                    View(s1.result), View(s2.result), View(s3.result), View(s4.result), View(s5.result),
                    View(s6.result), View(s7.result), View(s8.result), View(s9.result), View(s10.result))
    ensures countAdditions == 10 * (h * h)
  {
    s1 := MatrixSubtraction(b12, b22);
    s2 := MatrixAddition(a11, a12);
    s3 := MatrixAddition(a21, a22);
    s4 := MatrixSubtraction(b21, b11);
    s5 := MatrixAddition(a11, a22);
    s6 := MatrixAddition(b11, b22);
    s7 := MatrixSubtraction(a12, a22);
    s8 := MatrixAddition(b21, b22);
    s9 := MatrixSubtraction(a11, a21);
    s10 := MatrixAddition(b11, b12);
    countAdditions := s1.countAdditions + s2.countAdditions + s3.countAdditions + s4.countAdditions + s5.countAdditions
      + s6.countAdditions + s7.countAdditions + s8.countAdditions + s9.countAdditions + s10.countAdditions;
  }

  /** Step 3 of strassenMultiply: the seven half-order products, through the
      source's overloads on slices and operation results. */
  method StrassenProducts(a11: Slice, a22: Slice, b11: Slice, b22: Slice,
                          s1: OpResult, s2: OpResult, s3: OpResult, s4: OpResult, s5: OpResult,
                          s6: OpResult, s7: OpResult, s8: OpResult, s9: OpResult, s10: OpResult, h: nat,
                          ghost x11: Mat, ghost x22: Mat, ghost y11: Mat, ghost y22: Mat,
                          ghost t1: Mat, ghost t2: Mat, ghost t3: Mat, ghost t4: Mat, ghost t5: Mat,
                          ghost t6: Mat, ghost t7: Mat, ghost t8: Mat, ghost t9: Mat, ghost t10: Mat)
    returns (p1: OpResult, p2: OpResult, p3: OpResult, p4: OpResult, p5: OpResult, p6: OpResult, p7: OpResult,
             countMultiplications: int, countAdditions: int)
    requires IsPow2(h)
    requires HasOrder(a11, h) && HasOrder(a22, h) && HasOrder(b11, h) && HasOrder(b22, h)
    requires HasOrder(s1.result, h) && HasOrder(s2.result, h) && HasOrder(s3.result, h) && HasOrder(s4.result, h)
    requires HasOrder(s5.result, h) && HasOrder(s6.result, h) && HasOrder(s7.result, h) && HasOrder(s8.result, h)
    requires HasOrder(s9.result, h) && HasOrder(s10.result, h)
    requires View(a11) == x11 && View(a22) == x22 && View(b11) == y11 && View(b22) == y22
    requires View(s1.result) == t1 && View(s2.result) == t2 && View(s3.result) == t3 && View(s4.result) == t4
    requires View(s5.result) == t5 && View(s6.result) == t6 && View(s7.result) == t7 && View(s8.result) == t8
    requires View(s9.result) == t9 && View(s10.result) == t10
    decreases 2 * h, 1
    ensures fresh(p1.result.matrix) && fresh(p2.result.matrix) && fresh(p3.result.matrix) && fresh(p4.result.matrix)
    ensures fresh(p5.result.matrix) && fresh(p6.result.matrix) && fresh(p7.result.matrix)
    ensures IsFullOfOrder(p1, h) && IsFullOfOrder(p2, h) && IsFullOfOrder(p3, h) && IsFullOfOrder(p4, h)
    ensures IsFullOfOrder(p5, h) && IsFullOfOrder(p6, h) && IsFullOfOrder(p7, h)
    ensures AreProducts(h, x11, x22, y11, y22, t1, t2, t3, t4, t5, t6, t7, t8, t9, t10,
                        View(p1.result), View(p2.result), View(p3.result), View(p4.result),
                        View(p5.result), View(p6.result), View(p7.result))
    ensures countMultiplications == 7 * MultCount(h) && countAdditions == 7 * AddCount(h)
  {
    p1 := StrassenMultiplySliceByResult(a11, s1);
    p2 := StrassenMultiplyResultBySlice(s2, b22);
    p3 := StrassenMultiplyResultBySlice(s3, b11);
    p4 := StrassenMultiplySliceByResult(a22, s4);
    p5 := StrassenMultiplyResults(s5, s6);
    p6 := StrassenMultiplyResults(s7, s8);
    p7 := StrassenMultiplyResults(s9, s10);
    countMultiplications := p1.countMultiplications + p2.countMultiplications + p3.countMultiplications
      + p4.countMultiplications + p5.countMultiplications + p6.countMultiplications + p7.countMultiplications;
    countAdditions := p1.countAdditions + p2.countAdditions + p3.countAdditions
      + p4.countAdditions + p5.countAdditions + p6.countAdditions + p7.countAdditions;
  }

  /** The quadrants of an even-order square slice denote the blocks of its
      matrix. */
  lemma QuadrantViews(s: Slice, h: nat)
    requires Valid(s) && s.rowLength == 2 * h && s.columnLength == 2 * h
    ensures Valid(SubSlice(s, 0, 0, h, h)) && View(SubSlice(s, 0, 0, h, h)) == Block(View(s), 0, 0, h, h)
    ensures Valid(SubSlice(s, 0, h, h, h)) && View(SubSlice(s, 0, h, h, h)) == Block(View(s), 0, h, h, h)
    ensures Valid(SubSlice(s, h, 0, h, h)) && View(SubSlice(s, h, 0, h, h)) == Block(View(s), h, 0, h, h)
    ensures Valid(SubSlice(s, h, h, h, h)) && View(SubSlice(s, h, h, h, h)) == Block(View(s), h, h, h, h)
  {
    SubSliceView(s, 0, 0, h, h);
    SubSliceView(s, 0, h, h, h);
    SubSliceView(s, h, 0, h, h);
    SubSliceView(s, h, h, h, h);
  }

  /** strassenMultiply on two operation results: multiplies their result
      slices. */
  method StrassenMultiplyResults(a: OpResult, b: OpResult) returns (res: OpResult)
    requires SquarePow2(a.result, b.result)
    decreases a.result.rowLength, 3
    ensures fresh(res.result.matrix) && IsProduct(res, a.result, b.result)
  {
    res := StrassenMultiply(a.result, b.result);
  }

  /** strassenMultiply on a slice and an operation result. */
  method StrassenMultiplySliceByResult(a: Slice, b: OpResult) returns (res: OpResult)
    requires SquarePow2(a, b.result)
    decreases a.rowLength, 3
    ensures fresh(res.result.matrix) && IsProduct(res, a, b.result)
  {
    res := StrassenMultiply(a, b.result);
  }

  /** strassenMultiply on an operation result and a slice. */
  method StrassenMultiplyResultBySlice(a: OpResult, b: Slice) returns (res: OpResult)
    requires SquarePow2(a.result, b)
    decreases a.result.rowLength, 3
    ensures fresh(res.result.matrix) && IsProduct(res, a.result, b)
  {
    res := StrassenMultiply(a.result, b);
  }
}
