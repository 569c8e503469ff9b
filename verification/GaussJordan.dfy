/** Gauss-Jordan inversion with partial pivoting, correct for every square matrix. */
module GaussJordan {
  import opened LinearAlgebra

  function Abs(t: real): real { if t < 0.0 then -t else t }

  ghost predicate InKernel(m: Matrix, v: Vec, d: nat)
    requires IsSquare(m, d)
  {
    |v| == d && forall i :: 0 <= i < d ==> Dot(m[i], v) == 0.0
  }

  /** No vector but zero is sent to zero. */
  ghost predicate Nonsingular(m: Matrix, d: nat)
    requires IsSquare(m, d)
  {
    forall v: Vec :: InKernel(m, v, d) ==> v == Zeros(d)
  }

  lemma InvertibleIsNonsingular(m: Matrix, inv: Matrix, d: nat)
    requires IsInverse(m, inv, d)
    ensures Nonsingular(m, d)
  {
    forall v: Vec | InKernel(m, v, d) ensures v == Zeros(d) {
      assert MatVec(m, v) == Zeros(d);
      MatVecOfProduct(inv, m, v);
      MatVecIdentity(v);
      forall i | 0 <= i < d ensures v[i] == 0.0 {
        assert v[i] == Dot(inv[i], Zeros(d));
        DotCommutes(inv[i], Zeros(d));
        DotToZero(Zeros(d), inv[i], d);
      }
    }
  }

  ghost predicate KernelWithin(a: Matrix, src: Matrix, d: nat)
    requires IsSquare(a, d) && IsSquare(src, d)
  {
    forall v: Vec :: InKernel(a, v, d) ==> InKernel(src, v, d)
  }

  /** The elimination's standing facts: inv records the row operations that turned src into a. */
  ghost predicate Reduces(src: Matrix, a: Matrix, inv: Matrix, d: nat) {
    && IsSquare(src, d) && IsSquare(a, d) && IsSquare(inv, d)
    && MatMul(inv, src, d) == a && KernelWithin(a, src, d) && Nonsingular(inv, d)
  }

  /** Shrinking kernels carry both standing facts to the next matrix. */
  lemma KernelStep(src: Matrix, m: Matrix, m': Matrix, d: nat)
    requires IsSquare(src, d) && IsSquare(m, d) && IsSquare(m', d) && KernelWithin(m', m, d)
    ensures KernelWithin(m, src, d) ==> KernelWithin(m', src, d)
    ensures Nonsingular(m, d) ==> Nonsingular(m', d)
  {
    if KernelWithin(m, src, d) {
      forall v: Vec | InKernel(m', v, d) ensures InKernel(src, v, d) {
        assert InKernel(m, v, d);
      }
    }
    if Nonsingular(m, d) {
      forall v: Vec | InKernel(m', v, d) ensures v == Zeros(d) {
        assert InKernel(m, v, d);
      }
    }
  }

  ghost predicate UnitColumns(a: Matrix, d: nat, cols: nat) {
    && IsSquare(a, d) && cols <= d
    && forall i, k :: 0 <= i < d && 0 <= k < cols ==> a[i][k] == if i == k then 1.0 else 0.0
  }

  // ----- the three row operations -----

  function Swapped(m: Matrix, i: nat, j: nat): Matrix
    requires i < |m| && j < |m|
  {
    m[i := m[j]][j := m[i]]
  }

  function Divided(v: Vec, p: real): (r: Vec)
    requires p != 0.0
    ensures |r| == |v| && forall j :: 0 <= j < |v| ==> r[j] == v[j] / p
  {
    seq(|v|, j requires 0 <= j < |v| => v[j] / p)
  }

  lemma Undivide(t: real, p: real)
    requires p != 0.0
    ensures t == p * (t / p)
  {
  }

  lemma DividedDot(v: Vec, p: real, w: Vec)
    requires p != 0.0 && |v| == |w|
    ensures Dot(v, w) == p * Dot(Divided(v, p), w)
  {
    DotToZero(Zeros(|v|), w, |v|);
    forall j | 0 <= j < |v| ensures v[j] == Zeros(|v|)[j] + p * Divided(v, p)[j] {
      Undivide(v[j], p);
    }
    DotLinear(v, Zeros(|v|), p, Divided(v, p), w);
  }

  lemma SwapKernel(m: Matrix, d: nat, i: nat, j: nat)
    requires IsSquare(m, d) && i < d && j < d
    ensures KernelWithin(Swapped(m, i, j), m, d)
  {
    var m' := Swapped(m, i, j);
    forall v: Vec, k | InKernel(m', v, d) && 0 <= k < d ensures Dot(m[k], v) == 0.0 {
      assert Dot(m'[i], v) == 0.0 && Dot(m'[j], v) == 0.0 && Dot(m'[k], v) == 0.0;
    }
  }

  lemma SwapKeepsReduces(src: Matrix, a: Matrix, inv: Matrix, d: nat, i: nat, j: nat)
    requires Reduces(src, a, inv, d) && i < d && j < d
    ensures Reduces(src, Swapped(a, i, j), Swapped(inv, i, j), d)
  {
    var a', inv' := Swapped(a, i, j), Swapped(inv, i, j);
    assert MatMul(inv', src, d) == a' by {
      forall k | 0 <= k < d ensures MatMul(inv', src, d)[k] == a'[k] {
        assert VecMat(inv'[k], src) == MatMul(inv, src, d)[if k == j then i else if k == i then j else k];
      }
    }
    SwapKernel(a, d, i, j);
    SwapKernel(inv, d, i, j);
    KernelStep(src, a, a', d);
    KernelStep(src, inv, inv', d);
  }

  lemma DivideKernel(m: Matrix, d: nat, c: nat, p: real)
    requires IsSquare(m, d) && c < d && p != 0.0
    ensures KernelWithin(m[c := Divided(m[c], p)], m, d)
  {
    var m' := m[c := Divided(m[c], p)];
    forall v: Vec, k | InKernel(m', v, d) && 0 <= k < d ensures Dot(m[k], v) == 0.0 {
      assert Dot(m'[k], v) == 0.0;
      if k == c { DividedDot(m[c], p, v); }
    }
  }

  lemma Redivide(t: real, p: real)
    requires p != 0.0
    ensures (p * t) / p == t
  {
  }

  lemma DivideVecMat(w: Vec, p: real, src: Matrix)
    requires p != 0.0 && IsSquare(src, |w|)
    ensures VecMat(Divided(w, p), src) == Divided(VecMat(w, src), p)
  {
    forall j | 0 <= j < |w| ensures VecMat(Divided(w, p), src)[j] == Divided(VecMat(w, src), p)[j] {
      DividedDot(w, p, Col(src, |w|, j));
      Redivide(Dot(Divided(w, p), Col(src, |w|, j)), p);
    }
  }

  /** Replacing one row on both sides keeps inv * src == a. */
  lemma RowStep(src: Matrix, a: Matrix, inv: Matrix, d: nat, r: nat, row: Vec, invRow: Vec)
    requires IsSquare(src, d) && IsSquare(a, d) && IsSquare(inv, d) && MatMul(inv, src, d) == a
    requires r < d && |row| == |invRow| == d && VecMat(invRow, src) == row
    ensures MatMul(inv[r := invRow], src, d) == a[r := row]
  {
    var inv', a' := inv[r := invRow], a[r := row];
    forall k | 0 <= k < d ensures MatMul(inv', src, d)[k] == a'[k] {
      assert VecMat(inv[k], src) == MatMul(inv, src, d)[k];
    }
  }

  lemma DivideKeepsReduces(src: Matrix, a: Matrix, inv: Matrix, d: nat, c: nat, p: real)
    requires Reduces(src, a, inv, d) && c < d && p != 0.0
    ensures Reduces(src, a[c := Divided(a[c], p)], inv[c := Divided(inv[c], p)], d)
  {
    var a', inv' := a[c := Divided(a[c], p)], inv[c := Divided(inv[c], p)];
    DivideVecMat(inv[c], p, src);
    RowStep(src, a, inv, d, c, a'[c], inv'[c]);
    DivideKernel(a, d, c, p);
    DivideKernel(inv, d, c, p);
    KernelStep(src, a, a', d);
    KernelStep(src, inv, inv', d);
  }

  lemma SubtractKernel(m: Matrix, d: nat, r: nat, c: nat, f: real)
    requires IsSquare(m, d) && r < d && c < d && r != c
    ensures KernelWithin(m[r := AddScaled(m[r], -f, m[c])], m, d)
  {
    var m' := m[r := AddScaled(m[r], -f, m[c])];
    forall v: Vec, k | InKernel(m', v, d) && 0 <= k < d ensures Dot(m[k], v) == 0.0 {
      assert Dot(m'[k], v) == 0.0 && Dot(m'[c], v) == 0.0;
      if k == r { DotLinear(m'[r], m[r], -f, m[c], v); }
    }
  }

  lemma SubtractVecMat(src: Matrix, a: Matrix, inv: Matrix, d: nat, r: nat, c: nat, f: real)
    requires IsSquare(src, d) && IsSquare(a, d) && IsSquare(inv, d) && MatMul(inv, src, d) == a
    requires r < d && c < d
    ensures VecMat(AddScaled(inv[r], -f, inv[c]), src) == AddScaled(a[r], -f, a[c])
  {
    VecMatLinear(AddScaled(inv[r], -f, inv[c]), inv[r], -f, inv[c], src);
    assert VecMat(inv[r], src) == MatMul(inv, src, d)[r] && VecMat(inv[c], src) == MatMul(inv, src, d)[c];
  }

  lemma SubtractKeepsReduces(src: Matrix, a: Matrix, inv: Matrix, d: nat, r: nat, c: nat, f: real)
    requires Reduces(src, a, inv, d) && r < d && c < d && r != c
    ensures Reduces(src, a[r := AddScaled(a[r], -f, a[c])], inv[r := AddScaled(inv[r], -f, inv[c])], d)
  {
    var a', inv' := a[r := AddScaled(a[r], -f, a[c])], inv[r := AddScaled(inv[r], -f, inv[c])];
    SubtractVecMat(src, a, inv, d, r, c, f);
    RowStep(src, a, inv, d, r, a'[r], inv'[r]);
    SubtractKernel(a, d, r, c, f);
    SubtractKernel(inv, d, r, c, f);
    KernelStep(src, a, a', d);
    KernelStep(src, inv, inv', d);
  }

  // ----- start, end, and the singular case -----

  lemma StartReduces(src: Matrix, d: nat)
    requires IsSquare(src, d)
    ensures Reduces(src, src, Identity(d), d)
  {
    forall i | 0 <= i < d ensures MatMul(Identity(d), src, d)[i] == src[i] {
      VecMatBasis(src, d, i);
    }
    forall v: Vec | InKernel(Identity(d), v, d) ensures v == Zeros(d) {
      MatVecIdentity(v);
    }
  }

  lemma NoGap(inv: Matrix, d: nat, u: Vec, w: Vec)
    requires IsSquare(inv, d) && Nonsingular(inv, d) && |u| == |w| == d
    requires MatVec(inv, u) == MatVec(inv, w)
    ensures u == w
  {
    var gap := AddScaled(u, -1.0, w);
    forall i | 0 <= i < d ensures Dot(inv[i], gap) == 0.0 {
      DotLinear(gap, u, -1.0, w, inv[i]);
      DotCommutes(inv[i], gap);
      DotCommutes(inv[i], u);
      DotCommutes(inv[i], w);
      assert MatVec(inv, u)[i] == MatVec(inv, w)[i];
    }
    assert InKernel(inv, gap, d);
    forall i | 0 <= i < d ensures u[i] == w[i] {
      assert gap[i] == Zeros(d)[i];
    }
  }

  lemma MatVecBasis(m: Matrix, d: nat, j: nat)
    requires IsSquare(m, d) && j < d
    ensures MatVec(m, Basis(d, j)) == Col(m, d, j)
  {
    forall i | 0 <= i < d ensures MatVec(m, Basis(d, j))[i] == m[i][j] {
      DotBasis(m[i], j);
    }
  }

  /** inv sends both src * (column j of inv) and the j-th basis vector to column j of inv. */
  lemma RightInverseColumn(src: Matrix, inv: Matrix, d: nat, j: nat)
    requires IsSquare(src, d) && IsSquare(inv, d) && j < d
    requires MatMul(inv, src, d) == Identity(d) && Nonsingular(inv, d)
    ensures MatVec(src, Col(inv, d, j)) == Basis(d, j)
  {
    var u := Col(inv, d, j);
    MatVecOfProduct(inv, src, u);
    MatVecIdentity(u);
    MatVecBasis(inv, d, j);
    NoGap(inv, d, MatVec(src, u), Basis(d, j));
  }

  /** Once a is the identity, the recorded operations are the two-sided inverse. */
  lemma FullyReducedInverts(src: Matrix, inv: Matrix, d: nat)
    requires Reduces(src, Identity(d), inv, d)
    ensures IsInverse(src, inv, d)
  {
    forall i, j | 0 <= i < d && 0 <= j < d
      ensures MatMul(src, inv, d)[i][j] == Identity(d)[i][j]
    {
      RightInverseColumn(src, inv, d, j);
      assert MatMul(src, inv, d)[i][j] == Dot(src[i], Col(inv, d, j)) == MatVec(src, Col(inv, d, j))[i];
    }
    forall i | 0 <= i < d ensures MatMul(src, inv, d)[i] == Identity(d)[i] {}
  }

  /** The vector a zero pivot column exposes: minus the column above the diagonal, then 1. */
  function KernelWitness(a: Matrix, d: nat, col: nat): (v: Vec)
    requires IsSquare(a, d) && col < d
    ensures |v| == d && v[col] == 1.0
    ensures forall k :: 0 <= k < col ==> v[k] == -a[k][col]
    ensures forall k :: col < k < d ==> v[k] == 0.0
  {
    seq(d, k requires 0 <= k < d => if k < col then -a[k][col] else if k == col then 1.0 else 0.0)
  }

  lemma {:induction false} UnitColumnsDot(a: Matrix, d: nat, cols: nat, v: Vec, i: nat, k: nat)
    requires UnitColumns(a, d, cols) && |v| == d && i < d && k <= cols
    ensures DotTo(a[i], v, k) == if i < k then v[i] else 0.0
  {
    if k > 0 { UnitColumnsDot(a, d, cols, v, i, k - 1); }
  }

  lemma {:induction false} ZeroTailDot(u: Vec, v: Vec, from: nat, k: nat)
    requires |u| == |v| && from <= k <= |v| && forall q :: from <= q < |v| ==> v[q] == 0.0
    ensures DotTo(u, v, k) == DotTo(u, v, from)
  {
    if k > from { ZeroTailDot(u, v, from, k - 1); }
  }

  lemma WitnessDot(a: Matrix, d: nat, col: nat, i: nat)
    requires col < d && i < d && UnitColumns(a, d, col)
    requires i >= col ==> a[i][col] == 0.0
    ensures Dot(a[i], KernelWitness(a, d, col)) == 0.0
  {
    var v := KernelWitness(a, d, col);
    UnitColumnsDot(a, d, col, v, i, col);
    ZeroTailDot(a[i], v, col + 1, d);
  }

  lemma ZeroPivotMeansSingular(src: Matrix, a: Matrix, inv: Matrix, d: nat, col: nat)
    requires Reduces(src, a, inv, d) && col < d && UnitColumns(a, d, col)
    requires forall i :: col <= i < d ==> a[i][col] == 0.0
    ensures !Nonsingular(src, d)
  {
    var v := KernelWitness(a, d, col);
    forall i | 0 <= i < d ensures Dot(a[i], v) == 0.0 {
      WitnessDot(a, d, col, i);
    }
    assert InKernel(a, v, d);
    assert v[col] != Zeros(d)[col];
  }

  lemma SubtractKeepsUnit(a: Matrix, d: nat, r: nat, col: nat, f: real)
    requires UnitColumns(a, d, col) && r < d && col < d && r != col
    ensures UnitColumns(a[r := AddScaled(a[r], -f, a[col])], d, col)
  {
  }

  lemma SwapKeepsUnit(a: Matrix, d: nat, col: nat, pivot: nat)
    requires UnitColumns(a, d, col) && col <= pivot < d
    ensures UnitColumns(Swapped(a, col, pivot), d, col)
  {
  }

  lemma DivideKeepsUnit(a: Matrix, d: nat, col: nat, p: real)
    requires UnitColumns(a, d, col) && col < d && p != 0.0
    ensures UnitColumns(a[col := Divided(a[col], p)], d, col)
  {
  }

  // ----- the elimination as a function of the two matrices -----

  datatype Pair = Pair(a: Matrix, inv: Matrix)

  ghost predicate SquarePair(p: Pair, d: nat) {
    IsSquare(p.a, d) && IsSquare(p.inv, d)
  }

  /** The row of the largest entry of column col among rows col .. upTo-1, the first one on a tie. */
  function PivotRow(a: Matrix, d: nat, col: nat, upTo: nat): (pivot: nat)
    requires IsSquare(a, d) && col < upTo <= d
    ensures col <= pivot < upTo
    ensures forall r :: col <= r < upTo ==> Abs(a[r][col]) <= Abs(a[pivot][col])
  {
    if upTo == col + 1 then col
    else
      var p := PivotRow(a, d, col, upTo - 1);
      if Abs(a[upTo - 1][col]) > Abs(a[p][col]) then upTo - 1 else p
  }

  function PivotedPair(p: Pair, d: nat, col: nat): (r: Pair)
    requires SquarePair(p, d) && col < d
    ensures SquarePair(r, d)
  {
    var pivot := PivotRow(p.a, d, col, d);
    if pivot == col then p else Pair(Swapped(p.a, col, pivot), Swapped(p.inv, col, pivot))
  }

  function DividedPair(p: Pair, d: nat, col: nat, q: real): (r: Pair)
    requires SquarePair(p, d) && col < d && q != 0.0
    ensures SquarePair(r, d)
  {
    Pair(p.a[col := Divided(p.a[col], q)], p.inv[col := Divided(p.inv[col], q)])
  }

  function SubtractedPair(p: Pair, d: nat, r: nat, col: nat): (s: Pair)
    requires SquarePair(p, d) && col < d && r < d
    ensures SquarePair(s, d)
  {
    var f := p.a[r][col];
    if r == col || f == 0.0 then p
    else Pair(p.a[r := AddScaled(p.a[r], -f, p.a[col])], p.inv[r := AddScaled(p.inv[r], -f, p.inv[col])])
  }

  function ClearedPair(p: Pair, d: nat, col: nat, upTo: nat): (r: Pair)
    requires SquarePair(p, d) && col < d && upTo <= d
    ensures SquarePair(r, d)
  {
    if upTo == 0 then p else SubtractedPair(ClearedPair(p, d, col, upTo - 1), d, upTo - 1, col)
  }

  function ColumnStep(p: Pair, d: nat, col: nat): (r: Pair)
    requires SquarePair(p, d) && col < d
    ensures SquarePair(r, d)
  {
    var swapped := PivotedPair(p, d, col);
    var q := swapped.a[col][col];
    if q == 0.0 then swapped else ClearedPair(DividedPair(swapped, d, col, q), d, col, d)
  }

  function Eliminated(src: Matrix, d: nat, cols: nat): (r: Pair)
    requires IsSquare(src, d) && cols <= d
    ensures SquarePair(r, d)
  {
    if cols == 0 then Pair(src, Identity(d)) else ColumnStep(Eliminated(src, d, cols - 1), d, cols - 1)
  }

  lemma SubtractedReduces(src: Matrix, p: Pair, d: nat, r: nat, col: nat, s: Pair)
    requires SquarePair(p, d) && col < d && r < d && Reduces(src, p.a, p.inv, d)
    requires s == SubtractedPair(p, d, r, col)
    ensures Reduces(src, s.a, s.inv, d)
  {
    var f := p.a[r][col];
    if r == col || f == 0.0 {
      assert s == p;
    } else {
      SubtractKeepsReduces(src, p.a, p.inv, d, r, col, f);
      assert s.a == p.a[r := AddScaled(p.a[r], -f, p.a[col])];
      assert s.inv == p.inv[r := AddScaled(p.inv[r], -f, p.inv[col])];
    }
  }

  lemma {:induction false} ClearedReduces(src: Matrix, p: Pair, d: nat, col: nat, upTo: nat, r: Pair)
    requires SquarePair(p, d) && col < d && upTo <= d && Reduces(src, p.a, p.inv, d)
    requires r == ClearedPair(p, d, col, upTo)
    ensures Reduces(src, r.a, r.inv, d)
    decreases upTo
  {
    if upTo > 0 {
      var q := ClearedPair(p, d, col, upTo - 1);
      ClearedReduces(src, p, d, col, upTo - 1, q);
      SubtractedReduces(src, q, d, upTo - 1, col, r);
    }
  }

  lemma SubtractedUnit(p: Pair, d: nat, r: nat, col: nat, s: Pair)
    requires SquarePair(p, d) && col < d && r < d && UnitColumns(p.a, d, col) && p.a[col][col] == 1.0
    requires s == SubtractedPair(p, d, r, col)
    ensures UnitColumns(s.a, d, col) && s.a[col][col] == 1.0 && (r != col ==> s.a[r][col] == 0.0)
    ensures forall i :: 0 <= i < d && i != r ==> s.a[i] == p.a[i]
  {
    if r != col { SubtractKeepsUnit(p.a, d, r, col, p.a[r][col]); }
  }

  lemma {:induction false} ClearedUnit(p: Pair, d: nat, col: nat, upTo: nat, s: Pair)
    requires SquarePair(p, d) && col < d && upTo <= d && s == ClearedPair(p, d, col, upTo)
    requires UnitColumns(p.a, d, col) && p.a[col][col] == 1.0
    ensures UnitColumns(s.a, d, col) && s.a[col][col] == 1.0
    ensures forall i :: 0 <= i < upTo && i != col ==> s.a[i][col] == 0.0
    decreases upTo
  {
    if upTo > 0 {
      var q := ClearedPair(p, d, col, upTo - 1);
      ClearedUnit(p, d, col, upTo - 1, q);
      SubtractedUnit(q, d, upTo - 1, col, s);
    }
  }

  lemma PivotedReduces(src: Matrix, p: Pair, d: nat, col: nat, s: Pair)
    requires SquarePair(p, d) && col < d && Reduces(src, p.a, p.inv, d) && s == PivotedPair(p, d, col)
    ensures Reduces(src, s.a, s.inv, d)
  {
    var pivot := PivotRow(p.a, d, col, d);
    if pivot != col { SwapKeepsReduces(src, p.a, p.inv, d, col, pivot); }
  }

  lemma DividedReduces(src: Matrix, p: Pair, d: nat, col: nat, q: real, s: Pair)
    requires SquarePair(p, d) && col < d && Reduces(src, p.a, p.inv, d) && q != 0.0 && s == DividedPair(p, d, col, q)
    ensures Reduces(src, s.a, s.inv, d)
  {
    DivideKeepsReduces(src, p.a, p.inv, d, col, q);
  }

  lemma ColumnStepReduces(src: Matrix, p: Pair, d: nat, col: nat, r: Pair)
    requires SquarePair(p, d) && col < d && Reduces(src, p.a, p.inv, d) && r == ColumnStep(p, d, col)
    ensures Reduces(src, r.a, r.inv, d)
  {
    var s := PivotedPair(p, d, col);
    var q := s.a[col][col];
    PivotedReduces(src, p, d, col, s);
    if q != 0.0 {
      var t := DividedPair(s, d, col, q);
      DividedReduces(src, s, d, col, q, t);
      ClearedReduces(src, t, d, col, d, r);
    }
  }

  lemma PivotedUnit(p: Pair, d: nat, col: nat, s: Pair)
    requires SquarePair(p, d) && col < d && UnitColumns(p.a, d, col) && s == PivotedPair(p, d, col)
    ensures UnitColumns(s.a, d, col)
  {
    SwapKeepsUnit(p.a, d, col, PivotRow(p.a, d, col, d));
    assert Swapped(p.a, col, col) == p.a;
  }

  lemma DividedUnit(p: Pair, d: nat, col: nat, s: Pair)
    requires SquarePair(p, d) && col < d && UnitColumns(p.a, d, col) && p.a[col][col] != 0.0
    requires s == DividedPair(p, d, col, p.a[col][col])
    ensures UnitColumns(s.a, d, col) && s.a[col][col] == 1.0
  {
    DivideKeepsUnit(p.a, d, col, p.a[col][col]);
    Redivide(1.0, p.a[col][col]);
  }

  lemma ColumnStepUnit(p: Pair, d: nat, col: nat, r: Pair)
    requires SquarePair(p, d) && col < d && UnitColumns(p.a, d, col) && r == ColumnStep(p, d, col)
    requires PivotedPair(p, d, col).a[col][col] != 0.0
    ensures UnitColumns(r.a, d, col + 1)
  {
    var s := PivotedPair(p, d, col);
    var t := DividedPair(s, d, col, s.a[col][col]);
    PivotedUnit(p, d, col, s);
    DividedUnit(s, d, col, t);
    ClearedUnit(t, d, col, d, r);
  }

  lemma ZeroPivotColumn(p: Pair, d: nat, col: nat)
    requires SquarePair(p, d) && col < d && PivotedPair(p, d, col).a[col][col] == 0.0
    ensures forall i :: col <= i < d ==> p.a[i][col] == 0.0
  {
    assert Abs(p.a[PivotRow(p.a, d, col, d)][col]) == 0.0;
  }

  /** The recorded operations survive every column. */
  lemma {:induction false} EliminatedReduces(src: Matrix, d: nat, cols: nat, r: Pair)
    requires IsSquare(src, d) && cols <= d && r == Eliminated(src, d, cols)
    ensures Reduces(src, r.a, r.inv, d)
    decreases cols
  {
    if cols == 0 {
      StartReduces(src, d);
    } else {
      var p := Eliminated(src, d, cols - 1);
      EliminatedReduces(src, d, cols - 1, p);
      assert r == ColumnStep(p, d, cols - 1);
      ColumnStepReduces(src, p, d, cols - 1, r);
    }
  }

  lemma PivotIsNotZero(src: Matrix, d: nat, col: nat, p: Pair)
    requires IsSquare(src, d) && col < d && Nonsingular(src, d) && p == Eliminated(src, d, col)
    requires UnitColumns(p.a, d, col)
    ensures PivotedPair(p, d, col).a[col][col] != 0.0
  {
    EliminatedReduces(src, d, col, p);
    if PivotedPair(p, d, col).a[col][col] == 0.0 {
      ZeroPivotColumn(p, d, col);
      ZeroPivotMeansSingular(src, p.a, p.inv, d, col);
    }
  }

  /** The next column of a nonsingular matrix becomes a unit column too. */
  lemma NextUnit(src: Matrix, d: nat, col: nat, p: Pair, r: Pair)
    requires IsSquare(src, d) && col < d && Nonsingular(src, d) && p == Eliminated(src, d, col)
    requires UnitColumns(p.a, d, col) && r == ColumnStep(p, d, col)
    ensures UnitColumns(r.a, d, col + 1)
  {
    PivotIsNotZero(src, d, col, p);
    ColumnStepUnit(p, d, col, r);
  }

  /** The processed columns are unit columns unless src is singular. */
  lemma {:induction false} EliminatedUnit(src: Matrix, d: nat, cols: nat, r: Pair)
    requires IsSquare(src, d) && cols <= d && Nonsingular(src, d) && r == Eliminated(src, d, cols)
    ensures UnitColumns(r.a, d, cols)
    decreases cols
  {
    if cols > 0 {
      var p := Eliminated(src, d, cols - 1);
      EliminatedUnit(src, d, cols - 1, p);
      assert r == ColumnStep(p, d, cols - 1);
      NextUnit(src, d, cols - 1, p, r);
    }
  }

  lemma NoZeroPivot(src: Matrix, d: nat, col: nat)
    requires IsSquare(src, d) && col < d && Nonsingular(src, d)
    ensures PivotedPair(Eliminated(src, d, col), d, col).a[col][col] != 0.0
  {
    var p := Eliminated(src, d, col);
    EliminatedUnit(src, d, col, p);
    PivotIsNotZero(src, d, col, p);
  }

  lemma AllUnitIsIdentity(a: Matrix, d: nat)
    requires UnitColumns(a, d, d)
    ensures a == Identity(d)
  {
    forall i | 0 <= i < d ensures a[i] == Identity(d)[i] {}
  }

  /** No zero pivot is met, and the result is the two-sided inverse, exactly when src is nonsingular. */
  lemma EliminationInverts(src: Matrix, d: nat)
    requires IsSquare(src, d)
    ensures IsInverse(src, Eliminated(src, d, d).inv, d) <==> Nonsingular(src, d)
    ensures Nonsingular(src, d) ==>
      forall col :: 0 <= col < d ==> PivotedPair(Eliminated(src, d, col), d, col).a[col][col] != 0.0
  {
    var r := Eliminated(src, d, d);
    EliminatedReduces(src, d, d, r);
    if Nonsingular(src, d) {
      EliminatedUnit(src, d, d, r);
      AllUnitIsIdentity(r.a, d);
      FullyReducedInverts(src, r.inv, d);
      forall col | 0 <= col < d ensures PivotedPair(Eliminated(src, d, col), d, col).a[col][col] != 0.0 {
        NoZeroPivot(src, d, col);
      }
    } else if IsInverse(src, r.inv, d) {
      InvertibleIsNonsingular(src, r.inv, d);
    }
  }

  // ----- the loops -----

  method FindPivot(a: array<Vec>, d: nat, col: nat) returns (pivot: nat)
    requires a.Length == d && IsSquare(a[..], d) && col < d
    ensures pivot == PivotRow(a[..], d, col, d)
  {
    pivot := col;
    for r := col + 1 to d
      invariant pivot == PivotRow(a[..], d, col, r)
    {
      if Abs(a[r][col]) > Abs(a[pivot][col]) { pivot := r; }
    }
  }

  method DivideRow(a: array<Vec>, inv: array<Vec>, d: nat, col: nat, p: real)
    requires a != inv && a.Length == inv.Length == d && IsSquare(a[..], d) && IsSquare(inv[..], d)
    requires col < d && p != 0.0
    modifies a, inv
    ensures a[..] == old(a[..][col := Divided(a[col], p)])
    ensures inv[..] == old(inv[..][col := Divided(inv[col], p)])
  {
    for j := 0 to d
      invariant |a[col]| == d && |inv[col]| == d
      invariant forall k :: 0 <= k < d && k != col ==> a[k] == old(a[k]) && inv[k] == old(inv[k])
      invariant forall q :: 0 <= q < j ==> a[col][q] == old(a[col][q]) / p && inv[col][q] == old(inv[col][q]) / p
      invariant forall q :: j <= q < d ==> a[col][q] == old(a[col][q]) && inv[col][q] == old(inv[col][q])
    {
      a[col] := a[col][j := a[col][j] / p];
      inv[col] := inv[col][j := inv[col][j] / p];
    }
    assert a[col] == Divided(old(a[col]), p) && inv[col] == Divided(old(inv[col]), p);
  }

  method SubtractRow(a: array<Vec>, inv: array<Vec>, d: nat, r: nat, col: nat, factor: real)
    requires a != inv && a.Length == inv.Length == d && IsSquare(a[..], d) && IsSquare(inv[..], d)
    requires r < d && col < d && r != col
    modifies a, inv
    ensures a[..] == old(a[..][r := AddScaled(a[r], -factor, a[col])])
    ensures inv[..] == old(inv[..][r := AddScaled(inv[r], -factor, inv[col])])
  {
    for j := 0 to d
      invariant |a[r]| == d && |inv[r]| == d
      invariant forall k :: 0 <= k < d && k != r ==> a[k] == old(a[k]) && inv[k] == old(inv[k])
      invariant forall q :: 0 <= q < j ==>
        a[r][q] == AddScaled(old(a[r]), -factor, old(a[col]))[q]
          && inv[r][q] == AddScaled(old(inv[r]), -factor, old(inv[col]))[q]
      invariant forall q :: j <= q < d ==> a[r][q] == old(a[r][q]) && inv[r][q] == old(inv[r][q])
    {
      a[r] := a[r][j := a[r][j] - factor * a[col][j]];
      inv[r] := inv[r][j := inv[r][j] - factor * inv[col][j]];
    }
    assert a[r] == AddScaled(old(a[r]), -factor, old(a[col]));
    assert inv[r] == AddScaled(old(inv[r]), -factor, old(inv[col]));
  }

  method ClearColumn(a: array<Vec>, inv: array<Vec>, d: nat, col: nat)
    requires a != inv && a.Length == inv.Length == d && IsSquare(a[..], d) && IsSquare(inv[..], d) && col < d
    modifies a, inv
    ensures Pair(a[..], inv[..]) == ClearedPair(Pair(old(a[..]), old(inv[..])), d, col, d)
  {
    ghost var start := Pair(a[..], inv[..]);
    for r := 0 to d
      invariant Pair(a[..], inv[..]) == ClearedPair(start, d, col, r)
    {
      if r == col { continue; }
      var factor := a[r][col];
      if factor == 0.0 { continue; }
      SubtractRow(a, inv, d, r, col, factor);
    }
  }

  method EliminateColumn(a: array<Vec>, inv: array<Vec>, d: nat, col: nat)
    requires a != inv && a.Length == inv.Length == d && IsSquare(a[..], d) && IsSquare(inv[..], d) && col < d
    modifies a, inv
    ensures Pair(a[..], inv[..]) == ColumnStep(Pair(old(a[..]), old(inv[..])), d, col)
  {
    ghost var before := Pair(a[..], inv[..]);
    var pivot := FindPivot(a, d, col);
    if pivot != col {
      a[col], a[pivot] := a[pivot], a[col];
      inv[col], inv[pivot] := inv[pivot], inv[col];
    }
    assert Pair(a[..], inv[..]) == PivotedPair(before, d, col);
    var p := a[col][col];
    if p != 0.0 {
      DivideRow(a, inv, d, col, p);
      ClearColumn(a, inv, d, col);
    }
  }

  method InvertMatrix(src: Matrix) returns (result: Matrix)
    requires IsSquare(src, |src|)
    ensures result == Eliminated(src, |src|, |src|).inv
    ensures IsInverse(src, result, |src|) <==> Nonsingular(src, |src|)
  {
    var d := |src|;
    var a := new Vec[d](i requires 0 <= i < |src| => src[i]);
    var inv := new Vec[d](i requires 0 <= i => Basis(d, i));
    assert a[..] == src && inv[..] == Identity(d);
    for col := 0 to d
      invariant Pair(a[..], inv[..]) == Eliminated(src, d, col)
    {
      EliminateColumn(a, inv, d, col);
    }
    result := inv[..];
    EliminationInverts(src, d);
  }
}
