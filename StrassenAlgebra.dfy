/** Strassen's scheme on pure matrices: the identities that make one level of
    the recursion correct, and the operation counts of the whole recursion. */
module StrassenAlgebra {
  import opened Matrices

  /** n is 1, 2, 4, 8, ... */
  predicate IsPow2(n: nat)
    decreases n
  {
    n == 1 || (n > 1 && n % 2 == 0 && IsPow2(n / 2))
  }

  function Pow(b: nat, k: nat): (r: nat)
    ensures b > 0 ==> r > 0
  {
    if k == 0 then 1 else b * Pow(b, k - 1)
  }

  /** Scalar multiplications Strassen performs on order n. */
  function MultCount(n: nat): nat
    requires IsPow2(n)
    decreases n
  {
    if n == 1 then 1 else 7 * MultCount(n / 2)
  }

  /** Scalar additions and subtractions Strassen performs on order n: ten
      sum/difference steps and eight assembly passes of (n/2)^2 cells each,
      plus those of the seven half-order products. */
  function AddCount(n: nat): nat
    requires IsPow2(n)
    decreases n
  {
    if n == 1 then 0 else 7 * AddCount(n / 2) + 18 * ((n / 2) * (n / 2))
  }

  /** M(2^k) = 7^k */
  lemma {:induction false} MultCountClosedForm(k: nat)
    ensures IsPow2(Pow(2, k))
    ensures MultCount(Pow(2, k)) == Pow(7, k)
  {
    if k > 0 {
      MultCountClosedForm(k - 1);
      assert Pow(2, k) / 2 == Pow(2, k - 1);
    }
  }

  lemma {:induction false} PowSquare(k: nat)
    ensures Pow(2, k) * Pow(2, k) == Pow(4, k)
  {
    if k > 0 {
      PowSquare(k - 1);
      var p := Pow(2, k - 1);
      calc {
        Pow(2, k) * Pow(2, k);
        (2 * p) * (2 * p);
        4 * (p * p);
        4 * Pow(4, k - 1);
      }
    }
  }

  /** A(2^k) = 6 * (7^k - 4^k) */
  lemma {:induction false} AddCountClosedForm(k: nat)
    ensures IsPow2(Pow(2, k))
    ensures AddCount(Pow(2, k)) == 6 * (Pow(7, k) - Pow(4, k))
  {
    MultCountClosedForm(k);
    if k > 0 {
      AddCountClosedForm(k - 1);
      PowSquare(k - 1);
      assert Pow(2, k) / 2 == Pow(2, k - 1);
    }
  }

  /** Strassen never uses more scalar multiplications than the naive n^3, and
      strictly fewer from order 2 on. */
  lemma {:induction false} MultCountBelowCube(n: nat)
    requires IsPow2(n)
    decreases n
    ensures MultCount(n) <= n * n * n
    ensures n > 1 ==> MultCount(n) < n * n * n
  {
    if n > 1 {
      var h := n / 2;
      MultCountBelowCube(h);
      assert n * n * n == 8 * (h * h * h);
      assert h * h * h >= 1 by {
        assert h >= 1;
        assert h * h >= 1;
      }
    }
  }

  /** One level of Strassen's scheme with the seven half-order products taken
      exactly: each of the four assembled quadrants is the corresponding
      quadrant of the product. The S and P names follow the source. */
  lemma StrassenStep(x: Mat, y: Mat, h: nat)
    requires IsMat(x, 2 * h, 2 * h) && IsMat(y, 2 * h, 2 * h)
    ensures
      var x11, x12, x21, x22 := Block(x, 0, 0, h, h), Block(x, 0, h, h, h), Block(x, h, 0, h, h), Block(x, h, h, h, h);
      var y11, y12, y21, y22 := Block(y, 0, 0, h, h), Block(y, 0, h, h, h), Block(y, h, 0, h, h), Block(y, h, h, h, h);
      var p1 := MatMul(x11, Combine(Sub, y12, y22, h, h), h, h, h);
      var p2 := MatMul(Combine(Add, x11, x12, h, h), y22, h, h, h);
      var p3 := MatMul(Combine(Add, x21, x22, h, h), y11, h, h, h);
      var p4 := MatMul(x22, Combine(Sub, y21, y11, h, h), h, h, h);
      var p5 := MatMul(Combine(Add, x11, x22, h, h), Combine(Add, y11, y22, h, h), h, h, h);
      var p6 := MatMul(Combine(Sub, x12, x22, h, h), Combine(Add, y21, y22, h, h), h, h, h);
      var p7 := MatMul(Combine(Sub, x11, x21, h, h), Combine(Add, y11, y12, h, h), h, h, h);
      var xy := MatMul(x, y, 2 * h, 2 * h, 2 * h);
      && Block(xy, 0, 0, h, h) == Combine(Add, Combine(Sub, Combine(Add, p5, p4, h, h), p2, h, h), p6, h, h)
      && Block(xy, 0, h, h, h) == Combine(Add, p1, p2, h, h)
      && Block(xy, h, 0, h, h) == Combine(Add, p3, p4, h, h)
      && Block(xy, h, h, h, h) == Combine(Sub, Combine(Sub, Combine(Add, p5, p1, h, h), p3, h, h), p7, h, h)
  {
    var x11, x12, x21, x22 := Block(x, 0, 0, h, h), Block(x, 0, h, h, h), Block(x, h, 0, h, h), Block(x, h, h, h, h);
    var y11, y12, y21, y22 := Block(y, 0, 0, h, h), Block(y, 0, h, h, h), Block(y, h, 0, h, h), Block(y, h, h, h, h);
    StrassenTopLeft(x, y, h, x11, x12, x21, x22, y11, y12, y21, y22);
    StrassenTopRight(x, y, h, x11, x12, x21, x22, y11, y12, y21, y22);
    StrassenBottomLeft(x, y, h, x11, x12, x21, x22, y11, y12, y21, y22);
    StrassenBottomRight(x, y, h, x11, x12, x21, x22, y11, y12, y21, y22);
  }

  /** The ten sums and differences of step 2 of the scheme. */
  predicate AreSums(h: nat, x11: Mat, x12: Mat, x21: Mat, x22: Mat, y11: Mat, y12: Mat, y21: Mat, y22: Mat,
                    s1: Mat, s2: Mat, s3: Mat, s4: Mat, s5: Mat, s6: Mat, s7: Mat, s8: Mat, s9: Mat, s10: Mat)
    requires IsMat(x11, h, h) && IsMat(x12, h, h) && IsMat(x21, h, h) && IsMat(x22, h, h)
    requires IsMat(y11, h, h) && IsMat(y12, h, h) && IsMat(y21, h, h) && IsMat(y22, h, h)
  {
    && s1 == Combine(Sub, y12, y22, h, h) && s2 == Combine(Add, x11, x12, h, h)
    && s3 == Combine(Add, x21, x22, h, h) && s4 == Combine(Sub, y21, y11, h, h)
    && s5 == Combine(Add, x11, x22, h, h) && s6 == Combine(Add, y11, y22, h, h)
    && s7 == Combine(Sub, x12, x22, h, h) && s8 == Combine(Add, y21, y22, h, h)
    && s9 == Combine(Sub, x11, x21, h, h) && s10 == Combine(Add, y11, y12, h, h)
  }

  /** The seven half-order products of step 3 of the scheme. */
  predicate AreProducts(h: nat, x11: Mat, x22: Mat, y11: Mat, y22: Mat,
                        s1: Mat, s2: Mat, s3: Mat, s4: Mat, s5: Mat, s6: Mat, s7: Mat, s8: Mat, s9: Mat, s10: Mat,
                        p1: Mat, p2: Mat, p3: Mat, p4: Mat, p5: Mat, p6: Mat, p7: Mat)
    requires IsMat(x11, h, h) && IsMat(x22, h, h) && IsMat(y11, h, h) && IsMat(y22, h, h)
    requires IsMat(s1, h, h) && IsMat(s2, h, h) && IsMat(s3, h, h) && IsMat(s4, h, h) && IsMat(s5, h, h)
    requires IsMat(s6, h, h) && IsMat(s7, h, h) && IsMat(s8, h, h) && IsMat(s9, h, h) && IsMat(s10, h, h)
  {
    && p1 == MatMul(x11, s1, h, h, h) && p2 == MatMul(s2, y22, h, h, h)
    && p3 == MatMul(s3, y11, h, h, h) && p4 == MatMul(x22, s4, h, h, h)
    && p5 == MatMul(s5, s6, h, h, h) && p6 == MatMul(s7, s8, h, h, h)
    && p7 == MatMul(s9, s10, h, h, h)
  }

  /** The quadrants of m as step 4 of the scheme assembles them. */
  predicate IsAssembled(m: Mat, h: nat, p1: Mat, p2: Mat, p3: Mat, p4: Mat, p5: Mat, p6: Mat, p7: Mat)
    requires IsMat(m, 2 * h, 2 * h)
    requires IsMat(p1, h, h) && IsMat(p2, h, h) && IsMat(p3, h, h) && IsMat(p4, h, h)
    requires IsMat(p5, h, h) && IsMat(p6, h, h) && IsMat(p7, h, h)
  {
    && Block(m, 0, 0, h, h) == Combine(Add, Combine(Sub, Combine(Add, p5, p4, h, h), p2, h, h), p6, h, h)
    && Block(m, 0, h, h, h) == Combine(Add, p1, p2, h, h)
    && Block(m, h, 0, h, h) == Combine(Add, p3, p4, h, h)
    && Block(m, h, h, h, h) == Combine(Sub, Combine(Sub, Combine(Add, p5, p1, h, h), p3, h, h), p7, h, h)
  }

  /** The whole scheme: a matrix assembled by step 4 from products and sums
      taken as steps 2 and 3 prescribe is the product of x and y. */
  lemma StrassenScheme(x: Mat, y: Mat, h: nat, m: Mat,
                       x11: Mat, x12: Mat, x21: Mat, x22: Mat, y11: Mat, y12: Mat, y21: Mat, y22: Mat,
                       s1: Mat, s2: Mat, s3: Mat, s4: Mat, s5: Mat, s6: Mat, s7: Mat, s8: Mat, s9: Mat, s10: Mat,
                       p1: Mat, p2: Mat, p3: Mat, p4: Mat, p5: Mat, p6: Mat, p7: Mat)
    requires AreQuadrants(x, y, h, x11, x12, x21, x22, y11, y12, y21, y22)
    requires AreSums(h, x11, x12, x21, x22, y11, y12, y21, y22, s1, s2, s3, s4, s5, s6, s7, s8, s9, s10)
    requires AreProducts(h, x11, x22, y11, y22, s1, s2, s3, s4, s5, s6, s7, s8, s9, s10, p1, p2, p3, p4, p5, p6, p7)
    requires IsMat(m, 2 * h, 2 * h) && IsAssembled(m, h, p1, p2, p3, p4, p5, p6, p7)
    ensures m == MatMul(x, y, 2 * h, 2 * h, 2 * h)
  {
    StrassenStep(x, y, h);
    QuadrantsDetermine(m, MatMul(x, y, 2 * h, 2 * h, 2 * h), h);
  }

  predicate AreQuadrants(x: Mat, y: Mat, h: nat,
                         x11: Mat, x12: Mat, x21: Mat, x22: Mat,
                         y11: Mat, y12: Mat, y21: Mat, y22: Mat)
  {
    && IsMat(x, 2 * h, 2 * h) && IsMat(y, 2 * h, 2 * h)
    && x11 == Block(x, 0, 0, h, h) && x12 == Block(x, 0, h, h, h)
    && x21 == Block(x, h, 0, h, h) && x22 == Block(x, h, h, h, h)
    && y11 == Block(y, 0, 0, h, h) && y12 == Block(y, 0, h, h, h)
    && y21 == Block(y, h, 0, h, h) && y22 == Block(y, h, h, h, h)
  }

  /** C11 = P5 + P4 - P2 + P6 = X11 Y11 + X12 Y21 */
  lemma StrassenTopLeft(x: Mat, y: Mat, h: nat,
                        x11: Mat, x12: Mat, x21: Mat, x22: Mat,
                        y11: Mat, y12: Mat, y21: Mat, y22: Mat)
    requires AreQuadrants(x, y, h, x11, x12, x21, x22, y11, y12, y21, y22)
    ensures
      var p2 := MatMul(Combine(Add, x11, x12, h, h), y22, h, h, h);
      var p4 := MatMul(x22, Combine(Sub, y21, y11, h, h), h, h, h);
      var p5 := MatMul(Combine(Add, x11, x22, h, h), Combine(Add, y11, y22, h, h), h, h, h);
      var p6 := MatMul(Combine(Sub, x12, x22, h, h), Combine(Add, y21, y22, h, h), h, h, h);
      Block(MatMul(x, y, 2 * h, 2 * h, 2 * h), 0, 0, h, h)
        == Combine(Add, Combine(Sub, Combine(Add, p5, p4, h, h), p2, h, h), p6, h, h)
  {
    var p2 := MatMul(Combine(Add, x11, x12, h, h), y22, h, h, h);
    var p4 := MatMul(x22, Combine(Sub, y21, y11, h, h), h, h, h);
    var p5 := MatMul(Combine(Add, x11, x22, h, h), Combine(Add, y11, y22, h, h), h, h, h);
    var p6 := MatMul(Combine(Sub, x12, x22, h, h), Combine(Add, y21, y22, h, h), h, h, h);
    var c := Combine(Add, Combine(Sub, Combine(Add, p5, p4, h, h), p2, h, h), p6, h, h);
    var q := Block(MatMul(x, y, 2 * h, 2 * h, 2 * h), 0, 0, h, h);
    MatMulQuadrant(x, y, h, 0, 0);
    MatMulCombineLeft(Add, x11, x12, y22, h, h, h);
    MatMulCombineRight(Sub, x22, y21, y11, h, h, h);
    MatMulCombineLeft(Add, x11, x22, Combine(Add, y11, y22, h, h), h, h, h);
    MatMulCombineRight(Add, x11, y11, y22, h, h, h);
    MatMulCombineRight(Add, x22, y11, y22, h, h, h);
    MatMulCombineLeft(Sub, x12, x22, Combine(Add, y21, y22, h, h), h, h, h);
    MatMulCombineRight(Add, x12, y21, y22, h, h, h);
    MatMulCombineRight(Add, x22, y21, y22, h, h, h);
    forall i, j | 0 <= i < h && 0 <= j < h
      ensures q[i][j] == c[i][j]
    {
    }
    MatEq(q, c, h, h);
  }

  /** C12 = P1 + P2 = X11 Y12 + X12 Y22 */
  lemma StrassenTopRight(x: Mat, y: Mat, h: nat,
                         x11: Mat, x12: Mat, x21: Mat, x22: Mat,
                         y11: Mat, y12: Mat, y21: Mat, y22: Mat)
    requires AreQuadrants(x, y, h, x11, x12, x21, x22, y11, y12, y21, y22)
    ensures
      var p1 := MatMul(x11, Combine(Sub, y12, y22, h, h), h, h, h);
      var p2 := MatMul(Combine(Add, x11, x12, h, h), y22, h, h, h);
      Block(MatMul(x, y, 2 * h, 2 * h, 2 * h), 0, h, h, h) == Combine(Add, p1, p2, h, h)
  {
    var p1 := MatMul(x11, Combine(Sub, y12, y22, h, h), h, h, h);
    var p2 := MatMul(Combine(Add, x11, x12, h, h), y22, h, h, h);
    var c := Combine(Add, p1, p2, h, h);
    var q := Block(MatMul(x, y, 2 * h, 2 * h, 2 * h), 0, h, h, h);
    MatMulQuadrant(x, y, h, 0, h);
    MatMulCombineRight(Sub, x11, y12, y22, h, h, h);
    MatMulCombineLeft(Add, x11, x12, y22, h, h, h);
    forall i, j | 0 <= i < h && 0 <= j < h
      ensures q[i][j] == c[i][j]
    {
    }
    MatEq(q, c, h, h);
  }

  /** C21 = P3 + P4 = X21 Y11 + X22 Y21 */
  lemma StrassenBottomLeft(x: Mat, y: Mat, h: nat,
                           x11: Mat, x12: Mat, x21: Mat, x22: Mat,
                           y11: Mat, y12: Mat, y21: Mat, y22: Mat)
    requires AreQuadrants(x, y, h, x11, x12, x21, x22, y11, y12, y21, y22)
    ensures
      var p3 := MatMul(Combine(Add, x21, x22, h, h), y11, h, h, h);
      var p4 := MatMul(x22, Combine(Sub, y21, y11, h, h), h, h, h);
      Block(MatMul(x, y, 2 * h, 2 * h, 2 * h), h, 0, h, h) == Combine(Add, p3, p4, h, h)
  {
    var p3 := MatMul(Combine(Add, x21, x22, h, h), y11, h, h, h);
    var p4 := MatMul(x22, Combine(Sub, y21, y11, h, h), h, h, h);
    var c := Combine(Add, p3, p4, h, h);
    var q := Block(MatMul(x, y, 2 * h, 2 * h, 2 * h), h, 0, h, h);
    MatMulQuadrant(x, y, h, h, 0);
    MatMulCombineLeft(Add, x21, x22, y11, h, h, h);
    MatMulCombineRight(Sub, x22, y21, y11, h, h, h);
    forall i, j | 0 <= i < h && 0 <= j < h
      ensures q[i][j] == c[i][j]
    {
    }
    MatEq(q, c, h, h);
  }

  /** C22 = P5 + P1 - P3 - P7 = X21 Y12 + X22 Y22 */
  lemma StrassenBottomRight(x: Mat, y: Mat, h: nat,
                            x11: Mat, x12: Mat, x21: Mat, x22: Mat,
                            y11: Mat, y12: Mat, y21: Mat, y22: Mat)
    requires AreQuadrants(x, y, h, x11, x12, x21, x22, y11, y12, y21, y22)
    ensures
      var p1 := MatMul(x11, Combine(Sub, y12, y22, h, h), h, h, h);
      var p3 := MatMul(Combine(Add, x21, x22, h, h), y11, h, h, h);
      var p5 := MatMul(Combine(Add, x11, x22, h, h), Combine(Add, y11, y22, h, h), h, h, h);
      var p7 := MatMul(Combine(Sub, x11, x21, h, h), Combine(Add, y11, y12, h, h), h, h, h);
      Block(MatMul(x, y, 2 * h, 2 * h, 2 * h), h, h, h, h)
        == Combine(Sub, Combine(Sub, Combine(Add, p5, p1, h, h), p3, h, h), p7, h, h)
  {
    var p1 := MatMul(x11, Combine(Sub, y12, y22, h, h), h, h, h);
    var p3 := MatMul(Combine(Add, x21, x22, h, h), y11, h, h, h);
    var p5 := MatMul(Combine(Add, x11, x22, h, h), Combine(Add, y11, y22, h, h), h, h, h);
    var p7 := MatMul(Combine(Sub, x11, x21, h, h), Combine(Add, y11, y12, h, h), h, h, h);
    var c := Combine(Sub, Combine(Sub, Combine(Add, p5, p1, h, h), p3, h, h), p7, h, h);
    var q := Block(MatMul(x, y, 2 * h, 2 * h, 2 * h), h, h, h, h);
    MatMulQuadrant(x, y, h, h, h);
    MatMulCombineRight(Sub, x11, y12, y22, h, h, h);
    MatMulCombineLeft(Add, x21, x22, y11, h, h, h);
    MatMulCombineLeft(Add, x11, x22, Combine(Add, y11, y22, h, h), h, h, h);
    MatMulCombineRight(Add, x11, y11, y22, h, h, h);
    MatMulCombineRight(Add, x22, y11, y22, h, h, h);
    MatMulCombineLeft(Sub, x11, x21, Combine(Add, y11, y12, h, h), h, h, h);
    MatMulCombineRight(Add, x11, y11, y12, h, h, h);
    MatMulCombineRight(Add, x21, y11, y12, h, h, h);
    forall i, j | 0 <= i < h && 0 <= j < h
      ensures q[i][j] == c[i][j]
    {
    }
    MatEq(q, c, h, h);
  }
}
