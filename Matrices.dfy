/** Integer matrices as sequences of rows: the mathematical values that the
    slice-based engine is specified against. */
module Matrices {

  type Mat = seq<seq<int>>

  /** m has exactly `rows` rows of `cols` cells each. */
  predicate IsMat(m: Mat, rows: nat, cols: nat)
  {
    |m| == rows && forall i :: 0 <= i < rows ==> |m[i]| == cols
  }

  /** m has a rows x cols window whose top-left cell is (r0, c0). */
  predicate Fits(m: Mat, r0: nat, c0: nat, rows: nat, cols: nat)
  {
    r0 + rows <= |m| && forall i :: r0 <= i < r0 + rows ==> c0 + cols <= |m[i]|
  }

  /** Two matrices of the same shape with the same cells are equal. */
  lemma MatEq(x: Mat, y: Mat, rows: nat, cols: nat)
    requires IsMat(x, rows, cols) && IsMat(y, rows, cols)
    requires forall i, j :: 0 <= i < rows && 0 <= j < cols ==> x[i][j] == y[i][j]
    ensures x == y
  {
    forall i | 0 <= i < rows
      ensures x[i] == y[i]
    {
      assert |x[i]| == |y[i]|;
    }
  }

  /** The rows x cols window of m at (r0, c0), as a matrix of its own. */
  function Block(m: Mat, r0: nat, c0: nat, rows: nat, cols: nat): (b: Mat)
    requires Fits(m, r0, c0, rows, cols)
    ensures IsMat(b, rows, cols)
    ensures forall i, j :: 0 <= i < rows && 0 <= j < cols ==> b[i][j] == m[r0 + i][c0 + j]
  {
    seq(rows, i requires 0 <= i < rows => seq(cols, j requires 0 <= j < cols => m[r0 + i][c0 + j]))
  }

  /** m with the rows x cols matrix x written over its window at (r0, c0). */
  function Paste(m: Mat, r0: nat, c0: nat, x: Mat, rows: nat, cols: nat): (p: Mat)
    requires Fits(m, r0, c0, rows, cols) && IsMat(x, rows, cols)
    ensures |p| == |m| && forall i :: 0 <= i < |m| ==> |p[i]| == |m[i]|
    ensures forall i, j :: 0 <= i < |m| && 0 <= j < |m[i]| ==>
      p[i][j] == if r0 <= i < r0 + rows && c0 <= j < c0 + cols then x[i - r0][j - c0] else m[i][j]
  {
    seq(|m|, i requires 0 <= i < |m| =>
      if r0 <= i < r0 + rows then
        seq(|m[i]|, j requires 0 <= j < |m[i]| => if c0 <= j < c0 + cols then x[i - r0][j - c0] else m[i][j])
      else m[i])
  }

  /** A window of a window is a window of the whole, at the summed offsets. */
  lemma BlockOfBlock(m: Mat, r0: nat, c0: nat, rows: nat, cols: nat, r1: nat, c1: nat, rows1: nat, cols1: nat)
    requires Fits(m, r0, c0, rows, cols)
    requires r1 + rows1 <= rows && c1 + cols1 <= cols
    ensures Fits(m, r0 + r1, c0 + c1, rows1, cols1)
    ensures Block(Block(m, r0, c0, rows, cols), r1, c1, rows1, cols1) == Block(m, r0 + r1, c0 + c1, rows1, cols1)
  {
    MatEq(Block(Block(m, r0, c0, rows, cols), r1, c1, rows1, cols1), Block(m, r0 + r1, c0 + c1, rows1, cols1), rows1, cols1);
  }

  /** Writing one window leaves every window disjoint from it as it was. */
  lemma BlockPasteDisjoint(m: Mat, r0: nat, c0: nat, x: Mat, rows: nat, cols: nat,
                           r1: nat, c1: nat, rows1: nat, cols1: nat)
    requires Fits(m, r0, c0, rows, cols) && IsMat(x, rows, cols) && Fits(m, r1, c1, rows1, cols1)
    requires r0 + rows <= r1 || r1 + rows1 <= r0 || c0 + cols <= c1 || c1 + cols1 <= c0
    ensures Fits(Paste(m, r0, c0, x, rows, cols), r1, c1, rows1, cols1)
    ensures Block(Paste(m, r0, c0, x, rows, cols), r1, c1, rows1, cols1) == Block(m, r1, c1, rows1, cols1)
  {
    MatEq(Block(Paste(m, r0, c0, x, rows, cols), r1, c1, rows1, cols1), Block(m, r1, c1, rows1, cols1), rows1, cols1);
  }

  /** A square matrix of even order is determined by its four quadrants. */
  lemma QuadrantsDetermine(m: Mat, n: Mat, h: nat)
    requires IsMat(m, 2 * h, 2 * h) && IsMat(n, 2 * h, 2 * h)
    requires Block(m, 0, 0, h, h) == Block(n, 0, 0, h, h)
    requires Block(m, 0, h, h, h) == Block(n, 0, h, h, h)
    requires Block(m, h, 0, h, h) == Block(n, h, 0, h, h)
    requires Block(m, h, h, h, h) == Block(n, h, h, h, h)
    ensures m == n
  {
    forall i, j | 0 <= i < 2 * h && 0 <= j < 2 * h
      ensures m[i][j] == n[i][j]
    {
      var r0 := if i < h then 0 else h;
      var c0 := if j < h then 0 else h;
      assert m[i][j] == Block(m, r0, c0, h, h)[i - r0][j - c0];
      assert n[i][j] == Block(n, r0, c0, h, h)[i - r0][j - c0];
    }
    MatEq(m, n, 2 * h, 2 * h);
  }

  /** The two element-wise operators the engine applies. */
  datatype Op = Add | Sub

  function Apply(op: Op, x: int, y: int): int
  {
    match op
    case Add => x + y
    case Sub => x - y
  }

  /** Element-wise sum or difference of two matrices of the same shape. */
  function Combine(op: Op, x: Mat, y: Mat, rows: nat, cols: nat): (r: Mat)
    requires IsMat(x, rows, cols) && IsMat(y, rows, cols)
    ensures IsMat(r, rows, cols)
    ensures forall i, j :: 0 <= i < rows && 0 <= j < cols ==> r[i][j] == Apply(op, x[i][j], y[i][j])
  {
    seq(rows, i requires 0 <= i < rows => seq(cols, j requires 0 <= j < cols => Apply(op, x[i][j], y[i][j])))
  }

  /** The sum of x[i][t] * y[t][j] over t < k, accumulated left to right. */
  function Dot(x: Mat, y: Mat, i: nat, j: nat, k: nat): int
    requires i < |x| && k <= |x[i]| && k <= |y|
    requires forall t :: 0 <= t < k ==> j < |y[t]|
  {
    if k == 0 then 0 else Dot(x, y, i, j, k - 1) + x[i][k - 1] * y[k - 1][j]
  }

  /** The mathematical product of an m x k and a k x p matrix. */
  function MatMul(x: Mat, y: Mat, m: nat, k: nat, p: nat): (r: Mat)
    requires IsMat(x, m, k) && IsMat(y, k, p)
    ensures IsMat(r, m, p)
    ensures forall i, j :: 0 <= i < m && 0 <= j < p ==> r[i][j] == Dot(x, y, i, j, k)
  {
    seq(m, i requires 0 <= i < m => seq(p, j requires 0 <= j < p => Dot(x, y, i, j, k)))
  }

  /** Dot products distribute over a sum or difference in the left operand. */
  lemma {:induction false} DotCombineLeft(op: Op, x: Mat, z: Mat, y: Mat, m: nat, n: nat, p: nat, i: nat, j: nat, k: nat)
    requires IsMat(x, m, n) && IsMat(z, m, n) && IsMat(y, n, p)
    requires i < m && j < p && k <= n
    ensures Dot(Combine(op, x, z, m, n), y, i, j, k) == Apply(op, Dot(x, y, i, j, k), Dot(z, y, i, j, k))
  {
    if k > 0 {
      DotCombineLeft(op, x, z, y, m, n, p, i, j, k - 1);
      var c := Combine(op, x, z, m, n);
      assert c[i][k - 1] * y[k - 1][j] == Apply(op, x[i][k - 1] * y[k - 1][j], z[i][k - 1] * y[k - 1][j]) by {
        match op
        case Add =>
        case Sub =>
      }
    }
  }

  /** Dot products distribute over a sum or difference in the right operand. */
  lemma {:induction false} DotCombineRight(op: Op, x: Mat, y: Mat, z: Mat, m: nat, n: nat, p: nat, i: nat, j: nat, k: nat)
    requires IsMat(x, m, n) && IsMat(y, n, p) && IsMat(z, n, p)
    requires i < m && j < p && k <= n
    ensures Dot(x, Combine(op, y, z, n, p), i, j, k) == Apply(op, Dot(x, y, i, j, k), Dot(x, z, i, j, k))
  {
    if k > 0 {
      DotCombineRight(op, x, y, z, m, n, p, i, j, k - 1);
      var c := Combine(op, y, z, n, p);
      assert x[i][k - 1] * c[k - 1][j] == Apply(op, x[i][k - 1] * y[k - 1][j], x[i][k - 1] * z[k - 1][j]) by {
        match op
        case Add =>
        case Sub =>
      }
    }
  }

  /** (x op z) * y == x * y op z * y */
  lemma MatMulCombineLeft(op: Op, x: Mat, z: Mat, y: Mat, m: nat, n: nat, p: nat)
    requires IsMat(x, m, n) && IsMat(z, m, n) && IsMat(y, n, p)
    ensures MatMul(Combine(op, x, z, m, n), y, m, n, p)
         == Combine(op, MatMul(x, y, m, n, p), MatMul(z, y, m, n, p), m, p)
  {
    forall i, j | 0 <= i < m && 0 <= j < p
      ensures MatMul(Combine(op, x, z, m, n), y, m, n, p)[i][j]
           == Combine(op, MatMul(x, y, m, n, p), MatMul(z, y, m, n, p), m, p)[i][j]
    {
      DotCombineLeft(op, x, z, y, m, n, p, i, j, n);
    }
    MatEq(MatMul(Combine(op, x, z, m, n), y, m, n, p),
          Combine(op, MatMul(x, y, m, n, p), MatMul(z, y, m, n, p), m, p), m, p);
  }

  /** x * (y op z) == x * y op x * z */
  lemma MatMulCombineRight(op: Op, x: Mat, y: Mat, z: Mat, m: nat, n: nat, p: nat)
    requires IsMat(x, m, n) && IsMat(y, n, p) && IsMat(z, n, p)
    ensures MatMul(x, Combine(op, y, z, n, p), m, n, p)
         == Combine(op, MatMul(x, y, m, n, p), MatMul(x, z, m, n, p), m, p)
  {
    forall i, j | 0 <= i < m && 0 <= j < p
      ensures MatMul(x, Combine(op, y, z, n, p), m, n, p)[i][j]
           == Combine(op, MatMul(x, y, m, n, p), MatMul(x, z, m, n, p), m, p)[i][j]
    {
      DotCombineRight(op, x, y, z, m, n, p, i, j, n);
    }
    MatEq(MatMul(x, Combine(op, y, z, n, p), m, n, p),
          Combine(op, MatMul(x, y, m, n, p), MatMul(x, z, m, n, p), m, p), m, p);
  }

  /** The first h terms of a dot product inside a 2h x 2h product are the dot
      product of the left-column block of x with the top-row block of y. */
  lemma {:induction false} DotFirstHalf(x: Mat, y: Mat, h: nat, r0: nat, c0: nat, i: nat, j: nat, k: nat)
    requires IsMat(x, 2 * h, 2 * h) && IsMat(y, 2 * h, 2 * h)
    requires r0 + h <= 2 * h && c0 + h <= 2 * h && i < h && j < h && k <= h
    ensures Dot(x, y, r0 + i, c0 + j, k) == Dot(Block(x, r0, 0, h, h), Block(y, 0, c0, h, h), i, j, k)
  {
    if k > 0 {
      DotFirstHalf(x, y, h, r0, c0, i, j, k - 1);
    }
  }

  /** The last terms of a dot product inside a 2h x 2h product are the dot
      product of the right-column block of x with the bottom-row block of y. */
  lemma {:induction false} DotSecondHalf(x: Mat, y: Mat, h: nat, r0: nat, c0: nat, i: nat, j: nat, k: nat)
    requires IsMat(x, 2 * h, 2 * h) && IsMat(y, 2 * h, 2 * h)
    requires r0 + h <= 2 * h && c0 + h <= 2 * h && i < h && j < h && k <= h
    ensures Dot(x, y, r0 + i, c0 + j, h + k)
         == Dot(x, y, r0 + i, c0 + j, h) + Dot(Block(x, r0, h, h, h), Block(y, h, c0, h, h), i, j, k)
  {
    if k > 0 {
      DotSecondHalf(x, y, h, r0, c0, i, j, k - 1);
    }
  }

  /** Block multiplication: each quadrant of a 2h x 2h product is the sum of
      two half-order products of quadrants. */
  lemma MatMulQuadrant(x: Mat, y: Mat, h: nat, r0: nat, c0: nat)
    requires IsMat(x, 2 * h, 2 * h) && IsMat(y, 2 * h, 2 * h)
    requires r0 + h <= 2 * h && c0 + h <= 2 * h
    ensures Block(MatMul(x, y, 2 * h, 2 * h, 2 * h), r0, c0, h, h)
         == Combine(Add, MatMul(Block(x, r0, 0, h, h), Block(y, 0, c0, h, h), h, h, h),
                         MatMul(Block(x, r0, h, h, h), Block(y, h, c0, h, h), h, h, h), h, h)
  {
    var lhs := Block(MatMul(x, y, 2 * h, 2 * h, 2 * h), r0, c0, h, h);
    var rhs := Combine(Add, MatMul(Block(x, r0, 0, h, h), Block(y, 0, c0, h, h), h, h, h),
                            MatMul(Block(x, r0, h, h, h), Block(y, h, c0, h, h), h, h, h), h, h);
    forall i, j | 0 <= i < h && 0 <= j < h
      ensures lhs[i][j] == rhs[i][j]
    {
      DotFirstHalf(x, y, h, r0, c0, i, j, h);
      DotSecondHalf(x, y, h, r0, c0, i, j, h);
    }
    MatEq(lhs, rhs, h, h);
  }

  /** The n x n identity matrix. */
  function Identity(n: nat): (r: Mat)
    ensures IsMat(r, n, n)
    ensures forall i, j :: 0 <= i < n && 0 <= j < n ==> r[i][j] == if i == j then 1 else 0
  {
    seq(n, i requires 0 <= i < n => seq(n, j requires 0 <= j < n => if i == j then 1 else 0))
  }

  /** The rows x cols matrix of zeros. */
  function Zero(rows: nat, cols: nat): (r: Mat)
    ensures IsMat(r, rows, cols)
    ensures forall i, j :: 0 <= i < rows && 0 <= j < cols ==> r[i][j] == 0
  {
    seq(rows, i requires 0 <= i < rows => seq(cols, j requires 0 <= j < cols => 0))
  }

  /** The first k terms of row i of the identity pick out y[i][j] exactly
      when i < k. */
  lemma {:induction false} DotIdentityLeft(y: Mat, n: nat, p: nat, i: nat, j: nat, k: nat)
    requires IsMat(y, n, p) && i < n && j < p && k <= n
    ensures Dot(Identity(n), y, i, j, k) == if i < k then y[i][j] else 0
  {
    if k > 0 {
      DotIdentityLeft(y, n, p, i, j, k - 1);
    }
  }

  /** The first k terms against column j of the identity pick out x[i][j]
      exactly when j < k. */
  lemma {:induction false} DotIdentityRight(x: Mat, m: nat, n: nat, i: nat, j: nat, k: nat)
    requires IsMat(x, m, n) && i < m && j < n && k <= n
    ensures Dot(x, Identity(n), i, j, k) == if j < k then x[i][j] else 0
  {
    if k > 0 {
      DotIdentityRight(x, m, n, i, j, k - 1);
    }
  }

  /** I * y == y and x * I == x */
  lemma MatMulIdentity(x: Mat, y: Mat, n: nat)
    requires IsMat(x, n, n) && IsMat(y, n, n)
    ensures MatMul(Identity(n), y, n, n, n) == y
    ensures MatMul(x, Identity(n), n, n, n) == x
  {
    forall i, j | 0 <= i < n && 0 <= j < n
      ensures MatMul(Identity(n), y, n, n, n)[i][j] == y[i][j]
      ensures MatMul(x, Identity(n), n, n, n)[i][j] == x[i][j]
    {
      DotIdentityLeft(y, n, n, i, j, n);
      DotIdentityRight(x, n, n, i, j, n);
    }
    MatEq(MatMul(Identity(n), y, n, n, n), y, n, n);
    MatEq(MatMul(x, Identity(n), n, n, n), x, n, n);
  }

  /** Every partial dot product with a zero operand is zero. */
  lemma {:induction false} DotZero(x: Mat, y: Mat, m: nat, n: nat, p: nat, i: nat, j: nat, k: nat)
    requires IsMat(x, m, n) && IsMat(y, n, p) && i < m && j < p && k <= n
    ensures Dot(Zero(m, n), y, i, j, k) == 0
    ensures Dot(x, Zero(n, p), i, j, k) == 0
  {
    if k > 0 {
      DotZero(x, y, m, n, p, i, j, k - 1);
    }
  }

  /** 0 * y == 0 and x * 0 == 0 */
  lemma MatMulZero(x: Mat, y: Mat, m: nat, n: nat, p: nat)
    requires IsMat(x, m, n) && IsMat(y, n, p)
    ensures MatMul(Zero(m, n), y, m, n, p) == Zero(m, p)
    ensures MatMul(x, Zero(n, p), m, n, p) == Zero(m, p)
  {
    forall i, j | 0 <= i < m && 0 <= j < p
      ensures MatMul(Zero(m, n), y, m, n, p)[i][j] == 0
      ensures MatMul(x, Zero(n, p), m, n, p)[i][j] == 0
    {
      DotZero(x, y, m, n, p, i, j, n);
    }
    MatEq(MatMul(Zero(m, n), y, m, n, p), Zero(m, p), m, p);
    MatEq(MatMul(x, Zero(n, p), m, n, p), Zero(m, p), m, p);
  }
}
