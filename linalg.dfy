/** Fixed-size real linear algebra: the vector and matrix operations the filters
    use (Eigen in the original program), over exact reals. Sums accumulate from the
    first element to the last, the order in which the program's loops add. */
module LinAlg {

  type Vector = seq<real>
  type Matrix = seq<seq<real>>

  /** Left-to-right sum of the entries. */
  function Sum(v: Vector): real
  {
    if |v| == 0 then 0.0 else Sum(v[..|v| - 1]) + v[|v| - 1]
  }

  /** Inner product, accumulated left to right. */
  function Dot(u: Vector, v: Vector): real
    requires |u| == |v|
  {
    if |u| == 0 then 0.0 else Dot(u[..|u| - 1], v[..|v| - 1]) + u[|u| - 1] * v[|v| - 1]
  }

  function Ones(n: nat): (r: Vector)
    ensures |r| == n && forall i | 0 <= i < n :: r[i] == 1.0
  {
    seq(n, _ => 1.0)
  }

  function ZeroVector(n: nat): (r: Vector)
    ensures |r| == n && forall i | 0 <= i < n :: r[i] == 0.0
  {
    seq(n, _ => 0.0)
  }

  function VecAdd(u: Vector, v: Vector): (r: Vector)
    requires |u| == |v|
    ensures |r| == |u|
  {
    seq(|u|, i requires 0 <= i < |u| => u[i] + v[i])
  }

  function VecSub(u: Vector, v: Vector): (r: Vector)
    requires |u| == |v|
    ensures |r| == |u|
  {
    seq(|u|, i requires 0 <= i < |u| => u[i] - v[i])
  }

  function VecScale(k: real, v: Vector): (r: Vector)
    ensures |r| == |v|
  {
    seq(|v|, i requires 0 <= i < |v| => k * v[i])
  }

  /** `m` has `rows` rows of `cols` entries each. */
  ghost predicate IsMatrix(m: Matrix, rows: nat, cols: nat)
  {
    |m| == rows && forall i | 0 <= i < rows :: |m[i]| == cols
  }

  /** Number of columns, read from the first row. */
  function Width(m: Matrix): nat
  {
    if |m| == 0 then 0 else |m[0]|
  }

  function ZeroMatrix(rows: nat, cols: nat): (r: Matrix)
    ensures IsMatrix(r, rows, cols)
    ensures forall i, j | 0 <= i < rows && 0 <= j < cols :: r[i][j] == 0.0
  {
    seq(rows, _ => ZeroVector(cols))
  }

  function Col(m: Matrix, j: nat): (r: Vector)
    requires forall i | 0 <= i < |m| :: j < |m[i]|
    ensures |r| == |m|
  {
    seq(|m|, i requires 0 <= i < |m| => m[i][j])
  }

  function Transpose(m: Matrix): (r: Matrix)
    requires IsMatrix(m, |m|, Width(m))
    ensures IsMatrix(r, Width(m), |m|)
  {
    seq(Width(m), j requires 0 <= j < Width(m) => Col(m, j))
  }

  /** Matrix times column vector. */
  function MatVec(m: Matrix, v: Vector): (r: Vector)
    requires IsMatrix(m, |m|, |v|)
    ensures |r| == |m|
  {
    seq(|m|, i requires 0 <= i < |m| => Dot(m[i], v))
  }

  /** Row vector times matrix, for a matrix with `n` columns. */
  function VecMat(a: Vector, m: Matrix, n: nat): (r: Vector)
    requires IsMatrix(m, |a|, n)
    ensures |r| == n
  {
    seq(n, j requires 0 <= j < n => Dot(a, Col(m, j)))
  }

  function Mul(a: Matrix, b: Matrix): (r: Matrix)
    requires IsMatrix(b, |b|, Width(b))
    requires forall i | 0 <= i < |a| :: |a[i]| == |b|
    ensures IsMatrix(r, |a|, Width(b))
  {
    seq(|a|, i requires 0 <= i < |a| => VecMat(a[i], b, Width(b)))
  }

  function MatAdd(a: Matrix, b: Matrix): (r: Matrix)
    requires |a| == |b| && forall i | 0 <= i < |a| :: |a[i]| == |b[i]|
    ensures |r| == |a| && forall i | 0 <= i < |a| :: |r[i]| == |a[i]|
  {
    seq(|a|, i requires 0 <= i < |a| => VecAdd(a[i], b[i]))
  }

  function MatSub(a: Matrix, b: Matrix): (r: Matrix)
    requires |a| == |b| && forall i | 0 <= i < |a| :: |a[i]| == |b[i]|
    ensures |r| == |a| && forall i | 0 <= i < |a| :: |r[i]| == |a[i]|
  {
    seq(|a|, i requires 0 <= i < |a| => VecSub(a[i], b[i]))
  }

  function MatScale(k: real, m: Matrix): (r: Matrix)
    ensures |r| == |m| && forall i | 0 <= i < |m| :: |r[i]| == |m[i]|
  {
    seq(|m|, i requires 0 <= i < |m| => VecScale(k, m[i]))
  }

  /** The column-times-row product u·vᵀ. */
  function Outer(u: Vector, v: Vector): (r: Matrix)
    ensures IsMatrix(r, |u|, |v|)
  {
    seq(|u|, i requires 0 <= i < |u| => VecScale(u[i], v))
  }

  ghost predicate IsSymmetric(m: Matrix)
  {
    IsMatrix(m, |m|, |m|) && forall i, j | 0 <= i < |m| && 0 <= j < |m| :: m[i][j] == m[j][i]
  }

  // ---------------------------------------------------------------------------
  // Inner products

  /** One more term of a running inner product. */
  lemma DotPrefix(u: Vector, v: Vector, i: nat)
    requires |u| == |v| && i < |u|
    ensures Dot(u[..i + 1], v[..i + 1]) == Dot(u[..i], v[..i]) + u[i] * v[i]
  {
    assert u[..i + 1][..i] == u[..i] && v[..i + 1][..i] == v[..i];
  }

  lemma {:induction false} DotComm(u: Vector, v: Vector)
    requires |u| == |v|
    ensures Dot(u, v) == Dot(v, u)
  {
    if |u| > 0 {
      DotComm(u[..|u| - 1], v[..|v| - 1]);
    }
  }

  lemma {:induction false} DotAddLeft(u: Vector, v: Vector, w: Vector)
    requires |u| == |v| == |w|
    ensures Dot(VecAdd(u, v), w) == Dot(u, w) + Dot(v, w)
  {
    if |u| > 0 {
      var n := |u| - 1;
      assert VecAdd(u, v)[..n] == VecAdd(u[..n], v[..n]);
      DotAddLeft(u[..n], v[..n], w[..n]);
    }
  }

  lemma {:induction false} DotScaleLeft(k: real, u: Vector, w: Vector)
    requires |u| == |w|
    ensures Dot(VecScale(k, u), w) == k * Dot(u, w)
  {
    if |u| > 0 {
      var n := |u| - 1;
      forall i | 0 <= i < n ensures VecScale(k, u)[..n][i] == VecScale(k, u[..n])[i] { }
      assert VecScale(k, u)[..n] == VecScale(k, u[..n]);
      DotScaleLeft(k, u[..n], w[..n]);
      calc {
        Dot(VecScale(k, u), w);
        Dot(VecScale(k, u[..n]), w[..n]) + (k * u[n]) * w[n];
        k * Dot(u[..n], w[..n]) + k * (u[n] * w[n]);
        k * Dot(u, w);
      }
    }
  }

  lemma {:induction false} DotOnes(v: Vector)
    ensures Dot(v, Ones(|v|)) == Sum(v)
  {
    if |v| > 0 {
      var n := |v| - 1;
      assert Ones(|v|)[..n] == Ones(n);
      DotOnes(v[..n]);
    }
  }

  // ---------------------------------------------------------------------------
  // Products of matrices

  /** The double-sum exchange behind every identity below:
      (aᵀM)·c == aᵀ(M c). */
  lemma {:induction false} VecMatAdjoint(a: Vector, m: Matrix, n: nat, c: Vector)
    requires IsMatrix(m, |a|, n) && |c| == n
    ensures Dot(VecMat(a, m, n), c) == Dot(a, MatVec(m, c))
  {
    if |a| == 0 {
      VecMatOfEmpty(m, n);
      ZeroDot(n, c);
    } else {
      var k := |a| - 1;
      var a', m' := a[..k], m[..k];
      VecMatLastRow(a, m, n);
      DotAddLeft(VecMat(a', m', n), VecScale(a[k], m[k]), c);
      DotScaleLeft(a[k], m[k], c);
      VecMatAdjoint(a', m', n, c);
      assert MatVec(m, c)[..k] == MatVec(m', c);
    }
  }

  lemma VecMatOfEmpty(m: Matrix, n: nat)
    requires IsMatrix(m, 0, n)
    ensures VecMat([], m, n) == ZeroVector(n)
  {
    forall j | 0 <= j < n ensures VecMat([], m, n)[j] == ZeroVector(n)[j] {
      assert |Col(m, j)| == 0;
    }
  }

  /** aᵀM splits off the last row of M. */
  lemma VecMatLastRow(a: Vector, m: Matrix, n: nat)
    requires IsMatrix(m, |a|, n) && |a| > 0
    ensures var k := |a| - 1;
            VecMat(a, m, n) == VecAdd(VecMat(a[..k], m[..k], n), VecScale(a[k], m[k]))
  {
    var k := |a| - 1;
    var a', m' := a[..k], m[..k];
    forall j | 0 <= j < n
      ensures VecMat(a, m, n)[j] == VecAdd(VecMat(a', m', n), VecScale(a[k], m[k]))[j]
    {
      assert Col(m, j)[..k] == Col(m', j);
    }
  }

  lemma {:induction false} ZeroDot(n: nat, c: Vector)
    requires |c| == n
    ensures Dot(ZeroVector(n), c) == 0.0
  {
    if n > 0 {
      assert ZeroVector(n)[..n - 1] == ZeroVector(n - 1);
      ZeroDot(n - 1, c[..n - 1]);
    }
  }

  /** Column j of a product is the left factor applied to column j of the right one. */
  lemma ColOfMul(b: Matrix, c: Matrix, j: nat)
    requires IsMatrix(c, |c|, Width(c)) && j < Width(c)
    requires forall i | 0 <= i < |b| :: |b[i]| == |c|
    ensures Col(Mul(b, c), j) == MatVec(b, Col(c, j))
  {
    forall k | 0 <= k < |b| ensures Col(Mul(b, c), j)[k] == MatVec(b, Col(c, j))[k] {
      assert Mul(b, c)[k] == VecMat(b[k], c, Width(c));
    }
  }

  lemma MulAssoc(a: Matrix, b: Matrix, c: Matrix, r: nat, m: nat, n: nat, p: nat)
    requires 0 < m && 0 < n
    requires IsMatrix(a, r, m) && IsMatrix(b, m, n) && IsMatrix(c, n, p)
    ensures Mul(Mul(a, b), c) == Mul(a, Mul(b, c))
  {
    var ab, bc := Mul(a, b), Mul(b, c);
    assert Width(b) == n && Width(c) == p && Width(bc) == p;
    var lhs, rhs := Mul(ab, c), Mul(a, bc);
    forall i | 0 <= i < r ensures lhs[i] == rhs[i] {
      forall j | 0 <= j < p ensures lhs[i][j] == rhs[i][j] {
        assert ab[i] == VecMat(a[i], b, n);
        assert lhs[i] == VecMat(ab[i], c, p);
        assert rhs[i] == VecMat(a[i], bc, p);
        ColOfMul(b, c, j);
        VecMatAdjoint(a[i], b, n, Col(c, j));
      }
    }
  }

  lemma TransposeTranspose(m: Matrix, rows: nat, cols: nat)
    requires 0 < rows && 0 < cols && IsMatrix(m, rows, cols)
    ensures Transpose(Transpose(m)) == m
  {
    var t := Transpose(m);
    assert Width(t) == rows;
    forall i | 0 <= i < rows ensures Transpose(t)[i] == m[i] {
      forall j | 0 <= j < cols ensures Transpose(t)[i][j] == m[i][j] {
        assert Transpose(t)[i] == Col(t, i);
        assert t[j] == Col(m, j);
      }
    }
  }

  lemma TransposeOfProduct(a: Matrix, b: Matrix, r: nat, m: nat, n: nat)
    requires 0 < r && 0 < m && 0 < n
    requires IsMatrix(a, r, m) && IsMatrix(b, m, n)
    ensures Transpose(Mul(a, b)) == Mul(Transpose(b), Transpose(a))
  {
    var lhs, rhs := Transpose(Mul(a, b)), Mul(Transpose(b), Transpose(a));
    var ta, tb := Transpose(a), Transpose(b);
    assert Width(ta) == r && Width(tb) == m && Width(Mul(a, b)) == n;
    forall i | 0 <= i < n ensures lhs[i] == rhs[i] {
      forall j | 0 <= j < r ensures lhs[i][j] == rhs[i][j] {
        assert lhs[i] == Col(Mul(a, b), i);
        assert Mul(a, b)[j] == VecMat(a[j], b, n);
        assert rhs[i] == VecMat(tb[i], ta, r);
        assert tb[i] == Col(b, i);
        assert Col(ta, j) == a[j];
        DotComm(a[j], Col(b, i));
      }
    }
  }

  lemma SymmetricIsOwnTranspose(s: Matrix)
    requires 0 < |s| && IsSymmetric(s)
    ensures Transpose(s) == s
  {
    forall i | 0 <= i < |s| ensures Transpose(s)[i] == s[i] {
      assert Transpose(s)[i] == Col(s, i);
    }
  }

  /** A·S·Aᵀ is symmetric whenever S is: the congruence behind every covariance
      propagation of the filter. */
  lemma Congruence(a: Matrix, s: Matrix, r: nat, m: nat)
    requires 0 < r && 0 < m
    requires IsMatrix(a, r, m) && IsSymmetric(s) && |s| == m
    ensures IsSymmetric(Mul(Mul(a, s), Transpose(a)))
  {
    var x := Mul(Mul(a, s), Transpose(a));
    TransposeOfProduct(Mul(a, s), Transpose(a), r, m, r);
    TransposeTranspose(a, r, m);
    TransposeOfProduct(a, s, r, m, m);
    SymmetricIsOwnTranspose(s);
    MulAssoc(a, s, Transpose(a), r, m, m, r);
    assert Transpose(x) == x;
    forall i, j | 0 <= i < r && 0 <= j < r
      ensures x[i][j] == x[j][i]
    {
      assert Transpose(x)[i][j] == x[j][i];
    }
  }

  lemma AddSymmetric(a: Matrix, b: Matrix)
    requires IsSymmetric(a) && IsSymmetric(b) && |a| == |b|
    ensures IsSymmetric(MatAdd(a, b))
  {
  }

  lemma SubSymmetric(a: Matrix, b: Matrix)
    requires IsSymmetric(a) && IsSymmetric(b) && |a| == |b|
    ensures IsSymmetric(MatSub(a, b))
  {
  }

  lemma ScaleSymmetric(k: real, a: Matrix)
    requires IsSymmetric(a)
    ensures IsSymmetric(MatScale(k, a))
  {
  }

  lemma OuterSymmetric(u: Vector)
    ensures IsSymmetric(Outer(u, u))
  {
  }
}
