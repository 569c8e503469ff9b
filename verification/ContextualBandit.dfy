/** The LinUCB policy: two arms whose matrices are updated in place, snapshotted and restored. */
module ContextualBandit {
  import opened LinearAlgebra
  import opened RidgeModel
  import GaussJordan

  datatype Arm = Retry | CardUpdateComms
  datatype Action = Act(arm: Arm) | Suppress

  datatype ArmSnapshot = ArmSnapshot(a: Matrix, b: Vec, n: int)
  datatype BanditState = BanditState(dim: nat, ridge: real, retry: ArmSnapshot, comms: ArmSnapshot)

  ghost predicate WellShaped(s: ArmSnapshot, d: nat) {
    IsSquare(s.a, d) && |s.b| == d
  }

  ghost predicate StateShaped(s: BanditState) {
    WellShaped(s.retry, s.dim) && WellShaped(s.comms, s.dim)
  }

  /** One in-place step of the inverse, including the branch that skips a degenerate denominator. */
  function InverseStep(aInv: Matrix, x: Vec): (r: Matrix)
    requires IsSquare(aInv, |x|)
    ensures IsSquare(r, |x|)
  {
    if Denominator(aInv, x) <= 0.0 then aInv else ShermanMorrison(aInv, x)
  }

  method ComputeDot(u: Vec, v: Vec) returns (s: real)
    requires |u| == |v|
    ensures s == Dot(u, v)
  {
    s := 0.0;
    for i := 0 to |u|
      invariant s == DotTo(u, v, i)
    {
      s := s + u[i] * v[i];
    }
  }

  method ComputeMatVec(m: array<Vec>, v: Vec) returns (out: Vec)
    requires m.Length == |v| && IsSquare(m[..], |v|)
    ensures out == MatVec(m[..], v)
  {
    out := [];
    for i := 0 to |v|
      invariant |out| == i && forall k :: 0 <= k < i ==> out[k] == Dot(m[k], v)
    {
      var s := ComputeDot(m[i], v);
      out := out + [s];
    }
  }

  lemma ZeroRowUnchanged(row: Vec, y: Vec, denom: real)
    requires |row| == |y| && denom != 0.0
    ensures AddScaled(row, -(0.0 / denom), y) == row
  {
  }

  lemma SubtractedEntry(p: real, q: real, t: real, denom: real)
    requires denom != 0.0
    ensures t - (p * q) / denom == t + -(p / denom) * q
  {
    assert (p * q) / denom == (p / denom) * q;
  }

  /** The inner loop of the inverse update on one row. */
  method SubtractFromRow(start: Vec, ai: real, y: Vec, denom: real) returns (row: Vec)
    requires |start| == |y| && denom != 0.0
    ensures row == AddScaled(start, -(ai / denom), y)
  {
    row := start;
    for j := 0 to |y|
      invariant |row| == |y|
      invariant forall q :: 0 <= q < j ==> row[q] == AddScaled(start, -(ai / denom), y)[q]
      invariant forall q :: j <= q < |y| ==> row[q] == start[q]
    {
      SubtractedEntry(ai, y[j], start[j], denom);
      row := row[j := row[j] - (ai * y[j]) / denom];
    }
  }

  method ShermanMorrisonUpdate(aInv: array<Vec>, x: Vec)
    requires aInv.Length == |x| && IsSquare(aInv[..], |x|)
    modifies aInv
    ensures aInv[..] == InverseStep(old(aInv[..]), x)
  {
    var d := |x|;
    ghost var before := aInv[..];
    var y := ComputeMatVec(aInv, x);
    var xy := ComputeDot(x, y);
    var denom := 1.0 + xy;
    if denom <= 0.0 { return; }
    for i := 0 to d
      invariant forall k :: 0 <= k < i ==> aInv[k] == ShermanMorrison(before, x)[k]
      invariant forall k :: i <= k < d ==> aInv[k] == before[k]
    {
      var ai := y[i];
      assert ShermanMorrison(before, x)[i] == AddScaled(before[i], -(ai / denom), y);
      if ai == 0.0 {
        ZeroRowUnchanged(before[i], y, denom);
        continue;
      }
      var row := SubtractFromRow(aInv[i], ai, y, denom);
      aInv[i] := row;
    }
  }

  /** The inner loop of A += x * x' on one row. */
  method AddToRow(start: Vec, xi: real, x: Vec) returns (row: Vec)
    requires |start| == |x|
    ensures row == AddScaled(start, xi, x)
  {
    row := start;
    for j := 0 to |x|
      invariant |row| == |x|
      invariant forall q :: 0 <= q < j ==> row[q] == AddScaled(start, xi, x)[q]
      invariant forall q :: j <= q < |x| ==> row[q] == start[q]
    {
      row := row[j := row[j] + xi * x[j]];
    }
  }

  lemma ZeroScaleUnchanged(row: Vec, x: Vec)
    requires |row| == |x|
    ensures AddScaled(row, 0.0, x) == row
  {
  }

  /** A += x * x' and b += reward * x, row by row. */
  method Accumulate(a: array<Vec>, b: array<real>, x: Vec, reward: real)
    requires a.Length == b.Length == |x| && IsSquare(a[..], |x|)
    modifies a, b
    ensures a[..] == AddOuter(old(a[..]), x)
    ensures b[..] == AddScaled(old(b[..]), reward, x)
  {
    var d := |x|;
    ghost var rows, sums := AddOuter(a[..], x), AddScaled(b[..], reward, x);
    for i := 0 to d
      invariant forall k :: 0 <= k < i ==> a[k] == rows[k] && b[k] == sums[k]
      invariant forall k :: i <= k < d ==> a[k] == old(a[k]) && b[k] == old(b[k])
    {
      var xi := x[i];
      assert rows[i] == AddScaled(a[i], xi, x);
      if xi != 0.0 {
        var row := AddToRow(a[i], xi, x);
        a[i] := row;
      } else {
        ZeroScaleUnchanged(a[i], x);
      }
      b[i] := b[i] + reward * xi;
    }
  }

  /** What one outcome does to an arm's sufficient statistics. */
  function Observed(s: ArmSnapshot, o: Observation): (r: ArmSnapshot)
    requires WellShaped(s, |o.x|)
    ensures WellShaped(r, |o.x|)
  {
    ArmSnapshot(AddOuter(s.a, o.x), AddScaled(s.b, o.reward, o.x), s.n + 1)
  }

  function FreshArm(d: nat, ridge: real): (s: ArmSnapshot)
    ensures WellShaped(s, d)
  {
    ArmSnapshot(ScaledIdentity(d, ridge), Zeros(d), 0)
  }

  /** The statistics and the inverse are exactly what these outcomes teach a fresh arm. */
  ghost predicate Learned(s: ArmSnapshot, aInv: Matrix, ridge: real, d: nat, seen: seq<Observation>) {
    && ridge > 0.0 && AllOfDim(seen, d)
    && s == ArmSnapshot(Gram(ridge, d, seen), RewardSum(d, seen), |seen|)
    && aInv == MaintainedInverse(ridge, d, seen)
  }

  lemma FreshIsLearned(d: nat, ridge: real)
    requires ridge > 0.0
    ensures Learned(FreshArm(d, ridge), ScaledIdentity(d, 1.0 / ridge), ridge, d, [])
  {
  }

  /** One update keeps an arm learned, and never takes the degenerate branch. */
  lemma UpdateKeepsLearned(s: ArmSnapshot, aInv: Matrix, ridge: real, d: nat, seen: seq<Observation>, o: Observation)
    requires Learned(s, aInv, ridge, d, seen) && |o.x| == d
    ensures Learned(Observed(s, o), InverseStep(aInv, o.x), ridge, d, seen + [o])
    ensures Denominator(aInv, o.x) >= 1.0
    ensures IsInverse(Observed(s, o).a, InverseStep(aInv, o.x), d)
    ensures Symmetric(InverseStep(aInv, o.x), d)
  {
    var seen' := seen + [o];
    assert seen'[..|seen'| - 1] == seen;
    MaintainedInverseCorrect(ridge, d, seen);
    DenominatorPositive(ridge, d, seen, aInv, o.x);
    MaintainedInverseCorrect(ridge, d, seen');
  }

  /** Restoring a snapshot by Gauss-Jordan reproduces the inverse Sherman-Morrison maintained. */
  lemma RestoreReproducesInverse(s: ArmSnapshot, aInv: Matrix, ridge: real, d: nat, seen: seq<Observation>)
    requires Learned(s, aInv, ridge, d, seen)
    ensures GaussJordan.Eliminated(s.a, d, d).inv == aInv
  {
    MaintainedInverseCorrect(ridge, d, seen);
    GaussJordan.InvertibleIsNonsingular(s.a, aInv, d);
    GaussJordan.EliminationInverts(s.a, d);
    InverseUnique(s.a, aInv, GaussJordan.Eliminated(s.a, d, d).inv, d);
  }

  class ArmState {
    const d: nat
    var a: array<Vec>
    var aInv: array<Vec>
    var b: array<real>
    var n: int

    ghost predicate Shape()
      reads this, a, aInv, b
    {
      a.Length == aInv.Length == b.Length == d && a != aInv && IsSquare(a[..], d) && IsSquare(aInv[..], d)
    }

    ghost function View(): (s: ArmSnapshot)
      reads this, a, b
    {
      ArmSnapshot(a[..], b[..], n)
    }

    constructor Fresh(d: nat, ridge: real)
      requires ridge != 0.0
      ensures this.d == d && Shape()
      ensures View() == FreshArm(d, ridge) && aInv[..] == ScaledIdentity(d, 1.0 / ridge)
      ensures fresh(a) && fresh(aInv) && fresh(b)
    {
      this.d := d;
      a := new Vec[d](i requires 0 <= i < d => ScaledIdentity(d, ridge)[i]);
      aInv := new Vec[d](i requires 0 <= i < d => ScaledIdentity(d, 1.0 / ridge)[i]);
      b := new real[d](_ => 0.0);
      n := 0;
      new;
      assert a[..] == ScaledIdentity(d, ridge) && aInv[..] == ScaledIdentity(d, 1.0 / ridge);
      assert b[..] == Zeros(d);
    }

    /** What restore builds from a stored arm: copies, and the inverse recomputed from scratch. */
    constructor Restored(d: nat, s: ArmSnapshot)
      requires WellShaped(s, d)
      ensures this.d == d && Shape() && View() == s
      ensures aInv[..] == GaussJordan.Eliminated(s.a, d, d).inv
      ensures fresh(a) && fresh(aInv) && fresh(b)
    {
      var inverse := GaussJordan.InvertMatrix(s.a);
      this.d := d;
      a := new Vec[d](i requires 0 <= i < |s.a| => s.a[i]);
      aInv := new Vec[d](i requires 0 <= i < |inverse| => inverse[i]);
      b := new real[d](i requires 0 <= i < |s.b| => s.b[i]);
      n := s.n;
      new;
      assert a[..] == s.a && aInv[..] == inverse && b[..] == s.b;
    }

    method Update(x: Vec, reward: real)
      requires |x| == d && Shape()
      modifies this`n, a, aInv, b
      ensures Shape()
      ensures View() == Observed(old(View()), Observation(x, reward))
      ensures aInv[..] == InverseStep(old(aInv[..]), x)
    {
      ShermanMorrisonUpdate(aInv, x);
      Accumulate(a, b, x, reward);
      n := n + 1;
    }
  }

  class LinUcbBanditPolicy {
    const dim: nat
    const ridge: real
    const rewardScaleMinor: real
    var retry: ArmState
    var comms: ArmState

    ghost function Repr(): set<object>
      reads this, retry, comms
    {
      {this, retry, retry.a, retry.aInv, retry.b, comms, comms.a, comms.aInv, comms.b}
    }

    ghost predicate Valid()
      reads this, retry, comms, retry.a, retry.aInv, retry.b, comms.a, comms.aInv, comms.b
    {
      && retry.d == comms.d == dim && retry.Shape() && comms.Shape() && retry != comms
      && {retry.a, retry.aInv} !! {comms.a, comms.aInv} && retry.b != comms.b
      && ridge != 0.0 && rewardScaleMinor != 0.0
    }

    ghost function View(): (s: BanditState)
      reads this, retry, comms, retry.a, retry.b, comms.a, comms.b
    {
      BanditState(dim, ridge, retry.View(), comms.View())
    }

    constructor (dim: nat, ridge: real, rewardScaleMinor: real)
      requires ridge != 0.0 && rewardScaleMinor != 0.0
      ensures Valid() && fresh(Repr())
      ensures View() == BanditState(dim, ridge, FreshArm(dim, ridge), FreshArm(dim, ridge))
      ensures retry.aInv[..] == comms.aInv[..] == ScaledIdentity(dim, 1.0 / ridge)
    {
      this.dim := dim;
      this.ridge := ridge;
      this.rewardScaleMinor := rewardScaleMinor;
      retry := new ArmState.Fresh(dim, ridge);
      comms := new ArmState.Fresh(dim, ridge);
    }

    /** Only the chosen arm learns; a suppressed action teaches nothing. */
    method Update(x: Vec, action: Action, realizedRewardMinor: real)
      requires Valid() && |x| == dim
      modifies Repr()
      ensures Valid() && Repr() == old(Repr())
      ensures var o := Observation(x, realizedRewardMinor / rewardScaleMinor);
              View() == match action
                        case Suppress => old(View())
                        case Act(Retry) => old(View()).(retry := Observed(old(View()).retry, o))
                        case Act(CardUpdateComms) => old(View()).(comms := Observed(old(View()).comms, o))
      ensures retry.aInv[..]
              == if action == Act(Retry) then InverseStep(old(retry.aInv[..]), x) else old(retry.aInv[..])
      ensures comms.aInv[..]
              == if action == Act(CardUpdateComms) then InverseStep(old(comms.aInv[..]), x) else old(comms.aInv[..])
    {
      match action
      case Suppress =>
      case Act(Retry) => retry.Update(x, realizedRewardMinor / rewardScaleMinor);
      case Act(CardUpdateComms) => comms.Update(x, realizedRewardMinor / rewardScaleMinor);
    }

    method Snapshot() returns (s: BanditState)
      requires Valid()
      ensures s == View()
    {
      s := BanditState(dim, ridge, ArmSnapshot(retry.a[..], retry.b[..], retry.n),
                       ArmSnapshot(comms.a[..], comms.b[..], comms.n));
    }

    /** Returns false, changing nothing, on a state of another dimension. */
    method Restore(state: BanditState) returns (ok: bool)
      requires Valid() && StateShaped(state)
      modifies this`retry, this`comms
      ensures Valid() && fresh(Repr() - old(Repr()))
      ensures ok <==> state.dim == dim
      ensures ok ==> View() == state.(ridge := ridge)
      ensures ok ==> retry.aInv[..] == GaussJordan.Eliminated(state.retry.a, dim, dim).inv
      ensures ok ==> comms.aInv[..] == GaussJordan.Eliminated(state.comms.a, dim, dim).inv
      ensures !ok ==> retry == old(retry) && comms == old(comms)
    {
      if state.dim != dim { return false; }
      var retryArm := new ArmState.Restored(dim, state.retry);
      var commsArm := new ArmState.Restored(dim, state.comms);
      retry, comms := retryArm, commsArm;
      ok := true;
    }
  }
}
