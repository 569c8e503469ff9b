/** What the bandit's two matrices mean: A = lambda*I + sum of x*x', and its inverse kept by Sherman-Morrison. */
module RidgeModel {
  import opened LinearAlgebra
  import opened RealArithmetic

  /** One realized outcome: the encoded features and the scaled reward. */
  datatype Observation = Observation(x: Vec, reward: real)

  ghost predicate AllOfDim(obs: seq<Observation>, d: nat) {
    forall k :: 0 <= k < |obs| ==> |obs[k].x| == d
  }

  function ScaledIdentity(d: nat, value: real): (m: Matrix)
    ensures IsSquare(m, d)
    ensures forall i, j :: 0 <= i < d && 0 <= j < d ==> m[i][j] == if i == j then value else 0.0
  {
    seq(d, i requires 0 <= i => seq(d, j requires 0 <= j => if i == j then value else 0.0))
  }

  /** m + x * x'. */
  function AddOuter(m: Matrix, x: Vec): (r: Matrix)
    requires IsSquare(m, |x|)
    ensures IsSquare(r, |x|)
    ensures forall i, j :: 0 <= i < |x| && 0 <= j < |x| ==> r[i][j] == m[i][j] + x[i] * x[j]
  {
    seq(|x|, i requires 0 <= i < |x| => AddScaled(m[i], x[i], x))
  }

  function Denominator(aInv: Matrix, x: Vec): real
    requires IsSquare(aInv, |x|)
  {
    1.0 + Dot(x, MatVec(aInv, x))
  }

  function ShermanMorrison(aInv: Matrix, x: Vec): (r: Matrix)
    requires IsSquare(aInv, |x|) && Denominator(aInv, x) != 0.0
    ensures IsSquare(r, |x|)
  {
    var y, denom := MatVec(aInv, x), Denominator(aInv, x);
    seq(|x|, i requires 0 <= i < |x| => AddScaled(aInv[i], -(y[i] / denom), y))
  }

  /** The design matrix after the given outcomes; ridge is the policy's lambda. */
  ghost function Gram(ridge: real, d: nat, obs: seq<Observation>): (m: Matrix)
    requires AllOfDim(obs, d)
    ensures IsSquare(m, d)
  {
    if obs == [] then ScaledIdentity(d, ridge)
    else AddOuter(Gram(ridge, d, obs[..|obs| - 1]), obs[|obs| - 1].x)
  }

  /** The sum of reward * x over the given outcomes. */
  ghost function RewardSum(d: nat, obs: seq<Observation>): (b: Vec)
    requires AllOfDim(obs, d)
    ensures |b| == d
  {
    if obs == [] then Zeros(d)
    else AddScaled(RewardSum(d, obs[..|obs| - 1]), obs[|obs| - 1].reward, obs[|obs| - 1].x)
  }

  lemma {:induction false} GramSymmetric(ridge: real, d: nat, obs: seq<Observation>)
    requires AllOfDim(obs, d)
    ensures Symmetric(Gram(ridge, d, obs), d)
  {
    if obs != [] { GramSymmetric(ridge, d, obs[..|obs| - 1]); }
  }

  lemma AddOuterRow(m: Matrix, x: Vec, y: Vec, i: nat)
    requires |x| == |y| && IsSquare(m, |x|) && i < |x|
    ensures Dot(AddOuter(m, x)[i], y) == Dot(m[i], y) + Dot(x, y) * x[i]
  {
    DotLinear(AddOuter(m, x)[i], m[i], x[i], x, y);
    assert x[i] * Dot(x, y) == Dot(x, y) * x[i];
  }

  lemma AddOuterMatVec(m: Matrix, x: Vec, y: Vec)
    requires |x| == |y| && IsSquare(m, |x|)
    ensures MatVec(AddOuter(m, x), y) == AddScaled(MatVec(m, y), Dot(x, y), x)
  {
    var c := Dot(x, y);
    forall i | 0 <= i < |x| ensures MatVec(AddOuter(m, x), y)[i] == AddScaled(MatVec(m, y), c, x)[i] {
      AddOuterRow(m, x, y, i);
    }
  }

  lemma ScaledIdentityMatVec(d: nat, ridge: real, y: Vec)
    requires |y| == d
    ensures MatVec(ScaledIdentity(d, ridge), y) == AddScaled(Zeros(d), ridge, y)
  {
    var m := ScaledIdentity(d, ridge);
    forall i | 0 <= i < d ensures MatVec(m, y)[i] == AddScaled(Zeros(d), ridge, y)[i] {
      DotToZero(Zeros(d), y, d);
      DotLinear(m[i], Zeros(d), ridge, Basis(d, i), y);
      DotBasis(y, i);
    }
  }

  /** One more outcome adds (x'y)^2 to the quadratic form. */
  lemma AddOuterQuadratic(m: Matrix, x: Vec, y: Vec)
    requires |x| == |y| && IsSquare(m, |x|)
    ensures Dot(y, MatVec(AddOuter(m, x), y)) == Dot(y, MatVec(m, y)) + Dot(x, y) * Dot(x, y)
  {
    AddOuterMatVec(m, x, y);
    DotCommutes(y, MatVec(AddOuter(m, x), y));
    DotLinear(MatVec(AddOuter(m, x), y), MatVec(m, y), Dot(x, y), x, y);
    DotCommutes(y, MatVec(m, y));
  }

  /** The design matrix is bounded below by lambda: y'Ay >= lambda * y'y. */
  lemma {:induction false} GramBoundedBelow(ridge: real, d: nat, obs: seq<Observation>, y: Vec)
    requires AllOfDim(obs, d) && |y| == d
    ensures Dot(y, MatVec(Gram(ridge, d, obs), y)) >= ridge * Dot(y, y)
  {
    if obs == [] {
      ScaledIdentityMatVec(d, ridge, y);
      DotCommutes(y, AddScaled(Zeros(d), ridge, y));
      DotToZero(Zeros(d), y, d);
      DotLinear(AddScaled(Zeros(d), ridge, y), Zeros(d), ridge, y, y);
    } else {
      var rest, x := obs[..|obs| - 1], obs[|obs| - 1].x;
      GramBoundedBelow(ridge, d, rest, y);
      AddOuterQuadratic(Gram(ridge, d, rest), x, y);
      SquareNonNegative(Dot(x, y));
    }
  }

  /** For an inverse of the design matrix, x'Bx is never negative, so the denominator is at least 1. */
  lemma DenominatorPositive(ridge: real, d: nat, obs: seq<Observation>, aInv: Matrix, x: Vec)
    requires ridge > 0.0 && AllOfDim(obs, d) && |x| == d
    requires IsInverse(Gram(ridge, d, obs), aInv, d)
    ensures Denominator(aInv, x) >= 1.0
  {
    var a, y := Gram(ridge, d, obs), MatVec(aInv, x);
    MatVecOfProduct(a, aInv, x);
    MatVecIdentity(x);
    assert MatVec(a, y) == x;
    GramBoundedBelow(ridge, d, obs, y);
    SquaresNonNegative(y, d);
    DotCommutes(x, y);
    assert ridge * Dot(y, y) >= 0.0;
  }

  lemma ShermanMorrisonEntry(aInv: Matrix, x: Vec, i: nat, j: nat)
    requires IsSquare(aInv, |x|) && Denominator(aInv, x) != 0.0 && i < |x| && j < |x|
    ensures var y := MatVec(aInv, x);
            ShermanMorrison(aInv, x)[i][j] == aInv[i][j] - (y[i] * y[j]) / Denominator(aInv, x)
  {
    var y, denom := MatVec(aInv, x), Denominator(aInv, x);
    assert -(y[i] / denom) * y[j] == -((y[i] * y[j]) / denom);
  }

  lemma RescaleProduct(p: real, q: real, denom: real)
    requires denom != 0.0
    ensures -(p / denom) * q == -(q / denom) * p
  {
    assert (p / denom) * q == (p * q) / denom == (q / denom) * p;
  }

  lemma ShermanMorrisonColumn(aInv: Matrix, x: Vec, j: nat)
    requires IsSquare(aInv, |x|) && Denominator(aInv, x) != 0.0 && j < |x|
    ensures var y := MatVec(aInv, x);
            Col(ShermanMorrison(aInv, x), |x|, j) == AddScaled(Col(aInv, |x|, j), -(y[j] / Denominator(aInv, x)), y)
  {
    var y := MatVec(aInv, x);
    forall i | 0 <= i < |x|
      ensures Col(ShermanMorrison(aInv, x), |x|, j)[i]
              == AddScaled(Col(aInv, |x|, j), -(y[j] / Denominator(aInv, x)), y)[i]
    {
      RescaleProduct(y[i], y[j], Denominator(aInv, x));
    }
  }

  lemma DotLinearRight(w: Vec, u: Vec, c: real, y: Vec)
    requires |w| == |u| == |y|
    ensures Dot(w, AddScaled(u, c, y)) == Dot(w, u) + c * Dot(w, y)
  {
    DotLinear(AddScaled(u, c, y), u, c, y, w);
    DotCommutes(w, AddScaled(u, c, y));
    DotCommutes(w, u);
    DotCommutes(w, y);
  }

  lemma VecMatShermanMorrisonEntry(aInv: Matrix, x: Vec, w: Vec, j: nat)
    requires |w| == |x| && IsSquare(aInv, |x|) && Denominator(aInv, x) != 0.0 && j < |x|
    ensures var y := MatVec(aInv, x);
            VecMat(w, ShermanMorrison(aInv, x))[j] == VecMat(w, aInv)[j] + -(Dot(w, y) / Denominator(aInv, x)) * y[j]
  {
    var y, denom := MatVec(aInv, x), Denominator(aInv, x);
    var c, col := -(y[j] / denom), Col(aInv, |x|, j);
    ShermanMorrisonColumn(aInv, x, j);
    DotLinearRight(w, col, c, y);
    RescaleProduct(y[j], Dot(w, y), denom);
  }

  lemma VecMatShermanMorrison(aInv: Matrix, x: Vec, w: Vec)
    requires |w| == |x| && IsSquare(aInv, |x|) && Denominator(aInv, x) != 0.0
    ensures var y := MatVec(aInv, x);
            VecMat(w, ShermanMorrison(aInv, x))
            == AddScaled(VecMat(w, aInv), -(Dot(w, y) / Denominator(aInv, x)), y)
  {
    var d, y, denom := |x|, MatVec(aInv, x), Denominator(aInv, x);
    var r := AddScaled(VecMat(w, aInv), -(Dot(w, y) / denom), y);
    forall j | 0 <= j < d ensures VecMat(w, ShermanMorrison(aInv, x))[j] == r[j] {
      VecMatShermanMorrisonEntry(aInv, x, w, j);
    }
  }

  lemma RowImage(a: Matrix, aInv: Matrix, x: Vec, i: nat)
    requires i < |x| && IsInverse(a, aInv, |x|)
    ensures Dot(a[i], MatVec(aInv, x)) == x[i]
  {
    MatVecOfProduct(a, aInv, x);
    MatVecIdentity(x);
    assert Dot(a[i], MatVec(aInv, x)) == MatVec(a, MatVec(aInv, x))[i];
  }

  lemma OuterRowIs(a: Matrix, x: Vec, i: nat)
    requires IsSquare(a, |x|) && i < |x|
    ensures AddOuter(a, x)[i] == AddScaled(a[i], x[i], x)
  {
  }

  lemma OuterRowDot(u: Vec, c: real, x: Vec, y: Vec)
    requires |u| == |x| == |y| && Dot(u, y) == c
    ensures Dot(AddScaled(u, c, x), y) == c * (1.0 + Dot(x, y))
  {
    DotLinear(AddScaled(u, c, x), u, c, x, y);
    Distribute(c, 1.0, Dot(x, y));
  }

  /** A row of the updated matrix, against the old inverse's image of x. */
  lemma UpdatedRowDot(a: Matrix, aInv: Matrix, x: Vec, i: nat)
    requires i < |x| && IsInverse(a, aInv, |x|)
    ensures Dot(AddOuter(a, x)[i], MatVec(aInv, x)) == x[i] * Denominator(aInv, x)
  {
    var y := MatVec(aInv, x);
    assert Dot(a[i], y) == x[i] by { RowImage(a, aInv, x, i); }
    OuterRowIs(a, x, i);
    OuterRowDot(a[i], x[i], x, y);
  }

  lemma UpdatedRowImage(a: Matrix, aInv: Matrix, x: Vec, i: nat)
    requires i < |x| && IsInverse(a, aInv, |x|) && Symmetric(aInv, |x|)
    ensures VecMat(AddOuter(a, x)[i], aInv) == AddScaled(Basis(|x|, i), x[i], MatVec(aInv, x))
  {
    VecMatLinear(AddOuter(a, x)[i], a[i], x[i], x, aInv);
    assert VecMat(a[i], aInv) == MatMul(a, aInv, |x|)[i] == Basis(|x|, i);
    SymmetricRowsAreColumns(aInv, x);
  }

  lemma AddThenSubtract(u: Vec, c: real, w: Vec)
    requires |u| == |w|
    ensures AddScaled(AddScaled(u, c, w), -c, w) == u
  {
  }

  lemma Quotient(p: real, denom: real)
    requires denom != 0.0
    ensures (p * denom) / denom == p
  {
  }

  lemma SolvedQuotient(p: real, q: real, denom: real)
    requires denom != 0.0 && p == q * denom
    ensures p / denom == q
  {
    Quotient(q, denom);
  }

  lemma TakenBackOut(u: Vec, c: real, y: Vec, v: Vec)
    requires |u| == |y| && v == AddScaled(u, c, y)
    ensures AddScaled(v, -c, y) == u
  {
    AddThenSubtract(u, c, y);
  }

  lemma UpdatedRow(a: Matrix, aInv: Matrix, x: Vec, i: nat)
    requires i < |x| && IsInverse(a, aInv, |x|) && Symmetric(aInv, |x|)
    requires Denominator(aInv, x) != 0.0
    ensures VecMat(AddOuter(a, x)[i], ShermanMorrison(aInv, x)) == Basis(|x|, i)
  {
    var w, y, denom := AddOuter(a, x)[i], MatVec(aInv, x), Denominator(aInv, x);
    var c := Dot(w, y) / denom;
    UpdatedRowDot(a, aInv, x, i);
    SolvedQuotient(Dot(w, y), x[i], denom);
    VecMatShermanMorrison(aInv, x, w);
    UpdatedRowImage(a, aInv, x, i);
    TakenBackOut(Basis(|x|, i), c, y, VecMat(w, aInv));
  }

  /** The rank-one update of the inverse inverts the rank-one update of the matrix. */
  lemma ShermanMorrisonInverts(a: Matrix, aInv: Matrix, x: Vec)
    requires IsInverse(a, aInv, |x|) && Symmetric(a, |x|) && Symmetric(aInv, |x|)
    requires Denominator(aInv, x) != 0.0
    ensures IsInverse(AddOuter(a, x), ShermanMorrison(aInv, x), |x|)
    ensures Symmetric(ShermanMorrison(aInv, x), |x|)
  {
    var d := |x|;
    var a', b' := AddOuter(a, x), ShermanMorrison(aInv, x);
    forall i, j | 0 <= i < d && 0 <= j < d ensures b'[i][j] == b'[j][i] {
      ShermanMorrisonEntry(aInv, x, i, j);
      ShermanMorrisonEntry(aInv, x, j, i);
    }
    forall i | 0 <= i < d ensures VecMat(a'[i], b') == Basis(d, i) {
      UpdatedRow(a, aInv, x, i);
    }
    assert MatMul(a', b', d) == Identity(d);
    SymmetricInverse(a', b', d);
  }

  lemma {:induction false} ScaledIdentityInverse(d: nat, ridge: real)
    requires ridge > 0.0
    ensures IsInverse(ScaledIdentity(d, ridge), ScaledIdentity(d, 1.0 / ridge), d)
  {
    var a, b := ScaledIdentity(d, ridge), ScaledIdentity(d, 1.0 / ridge);
    forall i, j | 0 <= i < d && 0 <= j < d ensures MatMul(a, b, d)[i][j] == Identity(d)[i][j] {
      var c := Col(b, d, j);
      DotToZero(Zeros(d), c, d);
      DotLinear(a[i], Zeros(d), ridge, Basis(d, i), c);
      DotBasis(c, i);
      assert ridge * (1.0 / ridge) == 1.0;
    }
    assert forall i :: 0 <= i < d ==> MatMul(a, b, d)[i] == Identity(d)[i];
    SymmetricInverse(a, b, d);
  }

  /** The inverse the policy maintains after the given outcomes, one Sherman-Morrison step each. */
  ghost function MaintainedInverse(ridge: real, d: nat, obs: seq<Observation>): (m: Matrix)
    requires ridge > 0.0 && AllOfDim(obs, d)
    ensures IsSquare(m, d)
  {
    if obs == [] then ScaledIdentity(d, 1.0 / ridge)
    else
      var m, x := MaintainedInverse(ridge, d, obs[..|obs| - 1]), obs[|obs| - 1].x;
      if Denominator(m, x) <= 0.0 then m else ShermanMorrison(m, x)
  }

  /** Over any run of updates the maintained matrix is the symmetric inverse of the design matrix. */
  lemma {:induction false} MaintainedInverseCorrect(ridge: real, d: nat, obs: seq<Observation>)
    requires ridge > 0.0 && AllOfDim(obs, d)
    ensures IsInverse(Gram(ridge, d, obs), MaintainedInverse(ridge, d, obs), d)
    ensures Symmetric(MaintainedInverse(ridge, d, obs), d)
  {
    if obs == [] {
      ScaledIdentityInverse(d, ridge);
    } else {
      var rest, x := obs[..|obs| - 1], obs[|obs| - 1].x;
      MaintainedInverseCorrect(ridge, d, rest);
      GramSymmetric(ridge, d, rest);
      DenominatorPositive(ridge, d, rest, MaintainedInverse(ridge, d, rest), x);
      ShermanMorrisonInverts(Gram(ridge, d, rest), MaintainedInverse(ridge, d, rest), x);
    }
  }
}
