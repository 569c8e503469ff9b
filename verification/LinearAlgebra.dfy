/** Vectors and square matrices over the reals: the algebra behind the LinUCB reward model. */
module LinearAlgebra {

  type Vec = seq<real>
  type Matrix = seq<Vec>

  ghost predicate IsSquare(m: Matrix, d: nat) {
    |m| == d && forall i :: 0 <= i < d ==> |m[i]| == d
  }

  // ----- vectors -----

  /** The sum of the first k products, in the order the accumulating loops add them. */
  function DotTo(u: Vec, v: Vec, k: nat): real
    requires k <= |u| && k <= |v|
  {
    if k == 0 then 0.0 else DotTo(u, v, k - 1) + u[k - 1] * v[k - 1]
  }

  function Dot(u: Vec, v: Vec): real
    requires |u| == |v|
  {
    DotTo(u, v, |u|)
  }

  function Zeros(d: nat): (z: Vec)
    ensures |z| == d && forall i :: 0 <= i < d ==> z[i] == 0.0
  {
    seq(d, _ => 0.0)
  }

  function Basis(d: nat, k: nat): (e: Vec)
    ensures |e| == d
    ensures forall i :: 0 <= i < d ==> e[i] == if i == k then 1.0 else 0.0
  {
    seq(d, i => if i == k then 1.0 else 0.0)
  }

  /** u + c * w, entry by entry. */
  function AddScaled(u: Vec, c: real, w: Vec): (r: Vec)
    requires |u| == |w|
    ensures |r| == |u| && forall i :: 0 <= i < |u| ==> r[i] == u[i] + c * w[i]
  {
    seq(|u|, i requires 0 <= i < |u| => u[i] + c * w[i])
  }

  lemma LinearStep(p: real, q: real, u: real, c: real, w: real, v: real)
    ensures (p + c * q) + (u + c * w) * v == (p + u * v) + c * (q + w * v)
  {
  }

  lemma {:induction false} DotToLinear(r: Vec, u: Vec, c: real, w: Vec, v: Vec, k: nat)
    requires |r| == |u| == |w| == |v| && k <= |v|
    requires forall i :: 0 <= i < k ==> r[i] == u[i] + c * w[i]
    ensures DotTo(r, v, k) == DotTo(u, v, k) + c * DotTo(w, v, k)
  {
    if k > 0 {
      DotToLinear(r, u, c, w, v, k - 1);
      LinearStep(DotTo(u, v, k - 1), DotTo(w, v, k - 1), u[k - 1], c, w[k - 1], v[k - 1]);
      assert r[k - 1] == u[k - 1] + c * w[k - 1];
    }
  }

  lemma DotLinear(r: Vec, u: Vec, c: real, w: Vec, v: Vec)
    requires |r| == |u| == |w| == |v|
    requires forall i :: 0 <= i < |v| ==> r[i] == u[i] + c * w[i]
    ensures Dot(r, v) == Dot(u, v) + c * Dot(w, v)
  {
    DotToLinear(r, u, c, w, v, |v|);
  }

  lemma {:induction false} DotToCommutes(u: Vec, v: Vec, k: nat)
    requires k <= |u| && k <= |v|
    ensures DotTo(u, v, k) == DotTo(v, u, k)
  {
    if k > 0 { DotToCommutes(u, v, k - 1); }
  }

  lemma DotCommutes(u: Vec, v: Vec)
    requires |u| == |v|
    ensures Dot(u, v) == Dot(v, u)
  {
    DotToCommutes(u, v, |u|);
  }

  lemma {:induction false} DotToZero(u: Vec, v: Vec, k: nat)
    requires k <= |u| && k <= |v|
    requires forall i :: 0 <= i < k ==> u[i] == 0.0
    ensures DotTo(u, v, k) == 0.0
  {
    if k > 0 { DotToZero(u, v, k - 1); }
  }

  lemma {:induction false} DotToBasis(v: Vec, p: nat, k: nat)
    requires k <= |v|
    ensures DotTo(Basis(|v|, p), v, k) == if p < k then v[p] else 0.0
  {
    if k > 0 { DotToBasis(v, p, k - 1); }
  }

  lemma DotBasis(v: Vec, p: nat)
    requires p < |v|
    ensures Dot(Basis(|v|, p), v) == v[p] && Dot(v, Basis(|v|, p)) == v[p]
  {
    DotToBasis(v, p, |v|);
    DotCommutes(v, Basis(|v|, p));
  }

  lemma {:induction false} SquaresNonNegative(v: Vec, k: nat)
    requires k <= |v|
    ensures DotTo(v, v, k) >= 0.0
  {
    if k > 0 { SquaresNonNegative(v, k - 1); }
  }

  // ----- matrices -----

  function Identity(d: nat): (m: Matrix)
    ensures IsSquare(m, d)
    ensures forall i :: 0 <= i < d ==> m[i] == Basis(d, i)
  {
    seq(d, i requires 0 <= i => Basis(d, i))
  }

  function Col(m: Matrix, d: nat, j: nat): (c: Vec)
    requires IsSquare(m, d) && j < d
    ensures |c| == d && forall i :: 0 <= i < d ==> c[i] == m[i][j]
  {
    seq(d, i requires 0 <= i < d => m[i][j])
  }

  /** The column m * v. */
  function MatVec(m: Matrix, v: Vec): (r: Vec)
    requires IsSquare(m, |v|)
    ensures |r| == |v| && forall i :: 0 <= i < |v| ==> r[i] == Dot(m[i], v)
  {
    seq(|v|, i requires 0 <= i < |v| => Dot(m[i], v))
  }

  /** The row w * m. */
  function VecMat(w: Vec, m: Matrix): (r: Vec)
    requires IsSquare(m, |w|)
    ensures |r| == |w| && forall j :: 0 <= j < |w| ==> r[j] == Dot(w, Col(m, |w|, j))
  {
    seq(|w|, j requires 0 <= j < |w| => Dot(w, Col(m, |w|, j)))
  }

  function MatMul(a: Matrix, b: Matrix, d: nat): (m: Matrix)
    requires IsSquare(a, d) && IsSquare(b, d)
    ensures IsSquare(m, d) && forall i :: 0 <= i < d ==> m[i] == VecMat(a[i], b)
  {
    seq(d, i requires 0 <= i < d => VecMat(a[i], b))
  }

  ghost predicate Symmetric(m: Matrix, d: nat)
    requires IsSquare(m, d)
  {
    forall i, j :: 0 <= i < d && 0 <= j < d ==> m[i][j] == m[j][i]
  }

  ghost predicate IsInverse(a: Matrix, b: Matrix, d: nat) {
    && IsSquare(a, d) && IsSquare(b, d)
    && MatMul(a, b, d) == Identity(d) && MatMul(b, a, d) == Identity(d)
  }

  ghost function PartialVecMat(w: Vec, m: Matrix, k: nat): (r: Vec)
    requires IsSquare(m, |w|) && k <= |w|
    ensures |r| == |w| && forall j :: 0 <= j < |w| ==> r[j] == DotTo(w, Col(m, |w|, j), k)
  {
    seq(|w|, j requires 0 <= j < |w| => DotTo(w, Col(m, |w|, j), k))
  }

  lemma {:induction false} AssociateTo(w: Vec, m: Matrix, v: Vec, k: nat)
    requires |w| == |v| && IsSquare(m, |v|) && k <= |v|
    ensures Dot(PartialVecMat(w, m, k), v) == DotTo(w, MatVec(m, v), k)
  {
    if k == 0 {
      DotToZero(PartialVecMat(w, m, 0), v, |v|);
    } else {
      AssociateTo(w, m, v, k - 1);
      DotLinear(PartialVecMat(w, m, k), PartialVecMat(w, m, k - 1), w[k - 1], m[k - 1], v);
    }
  }

  /** (w * m) * v == w * (m * v). */
  lemma Associate(w: Vec, m: Matrix, v: Vec)
    requires |w| == |v| && IsSquare(m, |v|)
    ensures Dot(VecMat(w, m), v) == Dot(w, MatVec(m, v))
  {
    AssociateTo(w, m, v, |v|);
    assert VecMat(w, m) == PartialVecMat(w, m, |v|);
  }

  lemma VecMatLinear(r: Vec, u: Vec, c: real, w: Vec, m: Matrix)
    requires |r| == |u| == |w| && IsSquare(m, |w|)
    requires forall i :: 0 <= i < |w| ==> r[i] == u[i] + c * w[i]
    ensures VecMat(r, m) == AddScaled(VecMat(u, m), c, VecMat(w, m))
  {
    forall j | 0 <= j < |w|
      ensures VecMat(r, m)[j] == AddScaled(VecMat(u, m), c, VecMat(w, m))[j]
    {
      DotLinear(r, u, c, w, Col(m, |w|, j));
    }
  }

  lemma VecMatBasis(m: Matrix, d: nat, p: nat)
    requires IsSquare(m, d) && p < d
    ensures VecMat(Basis(d, p), m) == m[p]
  {
    forall j | 0 <= j < d ensures VecMat(Basis(d, p), m)[j] == m[p][j] {
      DotBasis(Col(m, d, j), p);
    }
  }

  lemma MatVecIdentity(v: Vec)
    ensures MatVec(Identity(|v|), v) == v
  {
    forall i | 0 <= i < |v| ensures MatVec(Identity(|v|), v)[i] == v[i] {
      DotBasis(v, i);
    }
  }

  lemma VecMatIdentity(v: Vec)
    ensures VecMat(v, Identity(|v|)) == v
  {
    forall j | 0 <= j < |v| ensures VecMat(v, Identity(|v|))[j] == v[j] {
      assert Col(Identity(|v|), |v|, j) == Basis(|v|, j);
      DotBasis(v, j);
    }
  }

  lemma MatVecOfProduct(a: Matrix, b: Matrix, v: Vec)
    requires IsSquare(a, |v|) && IsSquare(b, |v|)
    ensures MatVec(MatMul(a, b, |v|), v) == MatVec(a, MatVec(b, v))
  {
    forall i | 0 <= i < |v|
      ensures MatVec(MatMul(a, b, |v|), v)[i] == MatVec(a, MatVec(b, v))[i]
    {
      Associate(a[i], b, v);
    }
  }

  lemma VecMatOfProduct(w: Vec, a: Matrix, b: Matrix)
    requires IsSquare(a, |w|) && IsSquare(b, |w|)
    ensures VecMat(w, MatMul(a, b, |w|)) == VecMat(VecMat(w, a), b)
  {
    var d := |w|;
    forall j | 0 <= j < d
      ensures VecMat(w, MatMul(a, b, d))[j] == VecMat(VecMat(w, a), b)[j]
    {
      Associate(w, a, Col(b, d, j));
      assert MatVec(a, Col(b, d, j)) == Col(MatMul(a, b, d), d, j);
    }
  }

  /** A matrix has at most one inverse. */
  lemma InverseUnique(a: Matrix, b: Matrix, c: Matrix, d: nat)
    requires IsInverse(a, b, d) && IsInverse(a, c, d)
    ensures b == c
  {
    forall i | 0 <= i < d ensures b[i] == c[i] {
      calc {
        b[i];
        { VecMatIdentity(b[i]); }
        VecMat(b[i], MatMul(a, c, d));
        { VecMatOfProduct(b[i], a, c); }
        VecMat(VecMat(b[i], a), c);
        { assert VecMat(b[i], a) == MatMul(b, a, d)[i]; }
        VecMat(Basis(d, i), c);
        { VecMatBasis(c, d, i); }
        c[i];
      }
    }
  }

  lemma SymmetricRowsAreColumns(m: Matrix, v: Vec)
    requires IsSquare(m, |v|) && Symmetric(m, |v|)
    ensures VecMat(v, m) == MatVec(m, v)
  {
    forall j | 0 <= j < |v| ensures VecMat(v, m)[j] == MatVec(m, v)[j] {
      assert Col(m, |v|, j) == m[j];
      DotCommutes(v, m[j]);
    }
  }

  /** For symmetric matrices a one-sided inverse is two-sided. */
  lemma SymmetricInverse(a: Matrix, b: Matrix, d: nat)
    requires IsSquare(a, d) && IsSquare(b, d) && Symmetric(a, d) && Symmetric(b, d)
    requires MatMul(a, b, d) == Identity(d)
    ensures IsInverse(a, b, d)
  {
    forall i, j | 0 <= i < d && 0 <= j < d
      ensures MatMul(b, a, d)[i][j] == Identity(d)[i][j]
    {
      assert Col(a, d, j) == a[j] && Col(b, d, i) == b[i];
      DotCommutes(b[i], a[j]);
      assert MatMul(a, b, d)[j][i] == Identity(d)[j][i];
    }
    assert forall i :: 0 <= i < d ==> MatMul(b, a, d)[i] == Identity(d)[i];
  }
}
