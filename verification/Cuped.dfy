/** The covariate adjustment fitted on a pooled sample, and what it does to the sample's sum and variance. */
module Cuped {
  import opened RealArithmetic
  import opened Sums

  datatype CupedFit = CupedFit(theta: real, xbar: real, varianceReduction: real)

  function Itself(x: real): real { x }

  function Sum(xs: seq<real>): real { Total(xs, Itself) }

  function Mean(xs: seq<real>): real {
    if xs == [] then 0.0 else Sum(xs) / |xs| as real
  }

  /** Products of deviations from two centres. */
  function Products(xs: seq<real>, xc: real, ys: seq<real>, yc: real): seq<real>
    requires |xs| == |ys|
  {
    seq(|xs|, i requires 0 <= i < |xs| => Times(xs[i] - xc, ys[i] - yc))
  }

  function Cross(xs: seq<real>, xc: real, ys: seq<real>, yc: real): real
    requires |xs| == |ys|
  {
    Sum(Products(xs, xc, ys, yc))
  }

  function Covariance(xs: seq<real>, ys: seq<real>): real
    requires |xs| == |ys|
  {
    if xs == [] then 0.0 else Cross(xs, Mean(xs), ys, Mean(ys)) / |xs| as real
  }

  function Variance(xs: seq<real>): real { Covariance(xs, xs) }

  /** The regression slope and the squared correlation; nothing where the covariate carries no signal. */
  function FitFromMoments(c: real, vx: real, vy: real, xbar: real): CupedFit {
    if vx <= 0.0 || vy <= 0.0 then CupedFit(0.0, xbar, 0.0)
    else PositiveProduct(vx, vy); CupedFit(c / vx, xbar, c * c / (vx * vy))
  }

  function Fitted(ys: seq<real>, xs: seq<real>): CupedFit {
    if |ys| < 2 || |xs| != |ys| then CupedFit(0.0, Mean(xs), 0.0)
    else FitFromMoments(Covariance(ys, xs), Variance(xs), Variance(ys), Mean(xs))
  }

  ghost predicate IsSquareRoot(root: real -> real) {
    forall x :: x >= 0.0 ==> root(x) >= 0.0 && root(x) * root(x) == x
  }

  lemma SquaredQuotient(c: real, r: real, x: real)
    requires r * r == x && x > 0.0
    ensures r != 0.0 && (c / r) * (c / r) == c * c / x
  {
    var q := c / r;
    assert q * r == c;
    assert q * q * (r * r) == c * c;
  }

  method ComputeMean(xs: seq<real>) returns (m: real)
    ensures m == Mean(xs)
  {
    if |xs| == 0 { return 0.0; }
    var s, i := 0.0, 0;
    while i < |xs|
      invariant i <= |xs| && s == Sum(xs[..i])
    {
      TakeNext(xs, i);
      s, i := s + xs[i], i + 1;
    }
    assert xs[..i] == xs;
    m := s / |xs| as real;
  }

  lemma SumNext(ps: seq<real>, i: nat)
    requires i < |ps|
    ensures Sum(ps[..i + 1]) == Sum(ps[..i]) + ps[i]
  {
    TakeNext(ps, i);
  }

  lemma ProductAt(us: seq<real>, uc: real, vs: seq<real>, vc: real, i: nat)
    requires |us| == |vs| && i < |us|
    ensures Products(us, uc, vs, vc)[i] == Times(us[i] - uc, vs[i] - vc)
  {
  }

  /** The co-moment of the first i elements. */
  function CrossTo(us: seq<real>, uc: real, vs: seq<real>, vc: real, i: nat): real
    requires i <= |us| == |vs|
  {
    Sum(Products(us, uc, vs, vc)[..i])
  }

  lemma CrossNext(us: seq<real>, uc: real, vs: seq<real>, vc: real, i: nat, product: real)
    requires i < |us| == |vs| && product == Times(us[i] - uc, vs[i] - vc)
    ensures CrossTo(us, uc, vs, vc, i + 1) == CrossTo(us, uc, vs, vc, i) + product
  {
    SumNext(Products(us, uc, vs, vc), i);
    ProductAt(us, uc, vs, vc, i);
  }

  lemma CrossWhole(us: seq<real>, uc: real, vs: seq<real>, vc: real)
    requires |us| == |vs|
    ensures CrossTo(us, uc, vs, vc, 0) == 0.0 && CrossTo(us, uc, vs, vc, |us|) == Cross(us, uc, vs, vc)
  {
    var ps := Products(us, uc, vs, vc);
    assert ps[..0] == [] && ps[..|us|] == ps;
  }

  method Moments(ys: seq<real>, ybar: real, xs: seq<real>, xbar: real) returns (cov: real, varX: real, varY: real)
    requires |ys| == |xs|
    ensures cov == Cross(ys, ybar, xs, xbar)
    ensures varX == Cross(xs, xbar, xs, xbar)
    ensures varY == Cross(ys, ybar, ys, ybar)
  {
    CrossWhole(ys, ybar, xs, xbar);
    CrossWhole(xs, xbar, xs, xbar);
    CrossWhole(ys, ybar, ys, ybar);
    cov, varX, varY := 0.0, 0.0, 0.0;
    var i := 0;
    while i < |ys|
      invariant i <= |ys|
      invariant cov == CrossTo(ys, ybar, xs, xbar, i)
      invariant varX == CrossTo(xs, xbar, xs, xbar, i)
      invariant varY == CrossTo(ys, ybar, ys, ybar, i)
    {
      var dy, dx := ys[i] - ybar, xs[i] - xbar;
      var yx, xx, yy := Times(dy, dx), Times(dx, dx), Times(dy, dy);
      CrossNext(ys, ybar, xs, xbar, i, yx);
      CrossNext(xs, xbar, xs, xbar, i, xx);
      CrossNext(ys, ybar, ys, ybar, i, yy);
      cov, varX, varY := cov + yx, varX + xx, varY + yy;
      i := i + 1;
    }
  }

  /** Slope and squared correlation from the three moments; root is Math.sqrt. */
  method Fit(cov: real, varX: real, varY: real, xbar: real, root: real -> real) returns (fit: CupedFit)
    requires IsSquareRoot(root)
    ensures fit == FitFromMoments(cov, varX, varY, xbar)
  {
    if varX <= 0.0 || varY <= 0.0 { return CupedFit(0.0, xbar, 0.0); }
    PositiveProduct(varX, varY);
    var product := varX * varY;
    var deviation := root(product);
    SquaredQuotient(cov, deviation, product);
    var theta := cov / varX;
    var rho := cov / deviation;
    fit := CupedFit(theta, xbar, rho * rho);
  }

  method FitCuped(outcomes: seq<real>, covariates: seq<real>, root: real -> real) returns (fit: CupedFit)
    requires IsSquareRoot(root)
    ensures fit == Fitted(outcomes, covariates)
  {
    var xbar := ComputeMean(covariates);
    if |outcomes| < 2 || |covariates| != |outcomes| { return CupedFit(0.0, xbar, 0.0); }
    var n := |outcomes| as real;
    var ybar := ComputeMean(outcomes);
    var cov, varX, varY := Moments(outcomes, ybar, covariates, xbar);
    fit := Fit(cov / n, varX / n, varY / n, xbar, root);
  }

  function ApplyCuped(outcome: real, covariate: real, fit: CupedFit): real {
    outcome - fit.theta * (covariate - fit.xbar)
  }

  function Adjusted(ys: seq<real>, xs: seq<real>, fit: CupedFit): (r: seq<real>)
    requires |ys| == |xs|
  {
    seq(|ys|, i requires 0 <= i < |ys| => ApplyCuped(ys[i], xs[i], fit))
  }

  lemma AdjustedPrefix(ys: seq<real>, xs: seq<real>, fit: CupedFit, n: nat)
    requires |ys| == |xs| && n <= |ys|
    ensures Adjusted(ys, xs, fit)[..n] == Adjusted(ys[..n], xs[..n], fit)
  {
  }

  lemma SumStep(sy: real, y: real, t: real, sx: real, x: real, n: int, xbar: real)
    ensures sy - t * (sx - n as real * xbar) + (y - t * (x - xbar))
            == (sy + y) - t * ((sx + x) - (n + 1) as real * xbar)
  {
    assert (n + 1) as real * xbar == n as real * xbar + xbar;
    Distribute(t, sx - n as real * xbar, x - xbar);
  }

  lemma {:induction false} AdjustedSum(ys: seq<real>, xs: seq<real>, fit: CupedFit)
    requires |ys| == |xs|
    ensures Sum(Adjusted(ys, xs, fit)) == Sum(ys) - fit.theta * (Sum(xs) - |xs| as real * fit.xbar)
  {
    if ys != [] {
      var n := |ys| - 1;
      AdjustedSum(ys[..n], xs[..n], fit);
      AdjustedPrefix(ys, xs, fit, n);
      SumStep(Sum(ys[..n]), ys[n], fit.theta, Sum(xs[..n]), xs[n], n, fit.xbar);
    }
  }

  lemma MeanTimesCount(xs: seq<real>)
    ensures |xs| as real * Mean(xs) == Sum(xs)
  {
  }

  lemma NoGap(t: real, gap: real)
    requires gap == 0.0
    ensures t * gap == 0.0
  {
  }

  /** Every adjustment centred on the covariate mean leaves the sum, hence the mean, alone. */
  lemma SumUnchanged(ys: seq<real>, xs: seq<real>, fit: CupedFit)
    requires |ys| == |xs| && fit.xbar == Mean(xs)
    ensures Sum(Adjusted(ys, xs, fit)) == Sum(ys) && Mean(Adjusted(ys, xs, fit)) == Mean(ys)
  {
    AdjustedSum(ys, xs, fit);
    MeanTimesCount(xs);
    NoGap(fit.theta, Sum(xs) - |xs| as real * fit.xbar);
  }

  lemma DifferenceSquared(a: real, p: real)
    ensures (a - p) * (a - p) == a * a - 2.0 * (a * p) + p * p
  {
  }

  lemma SwapFactors(a: real, t: real, b: real)
    ensures a * (t * b) == t * (a * b)
  {
  }

  lemma ProductSquared(t: real, b: real)
    ensures (t * b) * (t * b) == t * t * (b * b)
  {
  }

  /** The value at slope t of the quadratic a - 2bt + ct^2. */
  function Quadratic(a: real, b: real, c: real, t: real): real { a - 2.0 * t * b + t * t * c }

  lemma SquareOfDifference(a: real, b: real, t: real)
    ensures (a - t * b) * (a - t * b) == Quadratic(a * a, a * b, b * b, t)
  {
    var p := t * b;
    DifferenceSquared(a, p);
    SwapFactors(a, t, b);
    ProductSquared(t, b);
  }

  lemma QuadraticAdds(a: real, b: real, c: real, a': real, b': real, c': real, t: real)
    ensures Quadratic(a, b, c, t) + Quadratic(a', b', c', t) == Quadratic(a + a', b + b', c + c', t)
  {
    Distribute(2.0 * t, b, b');
    Distribute(t * t, c, c');
  }

  /** One quadratic per element adds up to the quadratic of the sums. */
  lemma {:induction false} QuadraticOfSums(p: seq<real>, a: seq<real>, b: seq<real>, c: seq<real>, t: real)
    requires |p| == |a| == |b| == |c|
    requires forall i :: 0 <= i < |p| ==> p[i] == Quadratic(a[i], b[i], c[i], t)
    ensures Sum(p) == Quadratic(Sum(a), Sum(b), Sum(c), t)
  {
    if p != [] {
      var n := |p| - 1;
      QuadraticOfSums(p[..n], a[..n], b[..n], c[..n], t);
      QuadraticAdds(Sum(a[..n]), Sum(b[..n]), Sum(c[..n]), a[n], b[n], c[n], t);
    }
  }

  lemma AdjustedAt(ys: seq<real>, yc: real, xs: seq<real>, fit: CupedFit, i: nat)
    requires |ys| == |xs| && i < |ys|
    ensures Adjusted(ys, xs, fit)[i] - yc == (ys[i] - yc) - fit.theta * (xs[i] - fit.xbar)
  {
  }

  /** The square of an adjusted residual, from the products of the residuals it is made of. */
  lemma SquareIsQuadratic(z: real, y: real, x: real, t: real, zz: real, yy: real, yx: real, xx: real)
    requires z == y - t * x && zz == Times(z, z) && yy == Times(y, y) && yx == Times(y, x) && xx == Times(x, x)
    ensures zz == Quadratic(yy, yx, xx, t)
  {
    SquareOfDifference(y, x, t);
    SameSquare(z, y - t * x);
  }

  lemma AdjustedProducts(ys: seq<real>, yc: real, xs: seq<real>, fit: CupedFit, i: nat)
    requires |ys| == |xs| && i < |ys|
    ensures Products(Adjusted(ys, xs, fit), yc, Adjusted(ys, xs, fit), yc)[i] ==
            Quadratic(Products(ys, yc, ys, yc)[i], Products(ys, yc, xs, fit.xbar)[i],
                      Products(xs, fit.xbar, xs, fit.xbar)[i], fit.theta)
  {
    var zs, xc := Adjusted(ys, xs, fit), fit.xbar;
    AdjustedAt(ys, yc, xs, fit, i);
    ProductAt(zs, yc, zs, yc, i);
    ProductAt(ys, yc, ys, yc, i);
    ProductAt(ys, yc, xs, xc, i);
    ProductAt(xs, xc, xs, xc, i);
    SquareIsQuadratic(zs[i] - yc, ys[i] - yc, xs[i] - xc, fit.theta, Products(zs, yc, zs, yc)[i],
                      Products(ys, yc, ys, yc)[i], Products(ys, yc, xs, xc)[i], Products(xs, xc, xs, xc)[i]);
  }

  lemma AdjustedCross(ys: seq<real>, yc: real, xs: seq<real>, fit: CupedFit)
    requires |ys| == |xs|
    ensures Cross(Adjusted(ys, xs, fit), yc, Adjusted(ys, xs, fit), yc) ==
            Quadratic(Cross(ys, yc, ys, yc), Cross(ys, yc, xs, fit.xbar), Cross(xs, fit.xbar, xs, fit.xbar), fit.theta)
  {
    var zz := Products(Adjusted(ys, xs, fit), yc, Adjusted(ys, xs, fit), yc);
    var yy, yx, xx := Products(ys, yc, ys, yc), Products(ys, yc, xs, fit.xbar), Products(xs, fit.xbar, xs, fit.xbar);
    forall i | 0 <= i < |zz| ensures zz[i] == Quadratic(yy[i], yx[i], xx[i], fit.theta) {
      AdjustedProducts(ys, yc, xs, fit, i);
    }
    QuadraticOfSums(zz, yy, yx, xx, fit.theta);
  }

  lemma QuadraticDivided(a: real, b: real, c: real, t: real, n: real)
    requires n > 0.0
    ensures Quadratic(a, b, c, t) / n == Quadratic(a / n, b / n, c / n, t)
  {
    var p, q, r := a / n, b / n, c / n;
    assert a == p * n && b == q * n && c == r * n;
    assert 2.0 * t * b == 2.0 * t * q * n && t * t * c == t * t * r * n;
    assert Quadratic(a, b, c, t) == Quadratic(p, q, r, t) * n;
  }

  /** The variance of an adjusted sample is a quadratic in the slope. */
  lemma VarianceExpansion(ys: seq<real>, xs: seq<real>, fit: CupedFit)
    requires |ys| == |xs| && fit.xbar == Mean(xs)
    ensures Variance(Adjusted(ys, xs, fit)) == Quadratic(Variance(ys), Covariance(ys, xs), Variance(xs), fit.theta)
  {
    if ys != [] {
      SumUnchanged(ys, xs, fit);
      AdjustedCross(ys, Mean(ys), xs, fit);
      QuadraticDivided(Cross(ys, Mean(ys), ys, Mean(ys)), Cross(ys, Mean(ys), xs, Mean(xs)),
                       Cross(xs, Mean(xs), xs, Mean(xs)), fit.theta, |ys| as real);
    }
  }

  lemma SquaresNonNegative(xs: seq<real>, c: real)
    ensures Cross(xs, c, xs, c) >= 0.0
  {
    var ps := Products(xs, c, xs, c);
    forall p | p in ps ensures Itself(p) >= 0.0 {
      var i :| 0 <= i < |ps| && ps[i] == p;
      SquareNonNegative(xs[i] - c);
    }
    TotalNonNegative(ps, Itself);
  }

  lemma VarianceNonNegative(xs: seq<real>)
    ensures Variance(xs) >= 0.0
  {
    SquaresNonNegative(xs, Mean(xs));
  }

  lemma VertexValue(a: real, c: real, v: real)
    requires v > 0.0
    ensures Quadratic(a, c, v, c / v) == a - c * (c / v)
  {
    var t := c / v;
    assert t * v == c;
    assert t * t * v == t * c;
  }

  /** A slope at which the quadratic shows its discriminant. */
  function Witness(a: real, c: real, v: real): real {
    if v > 0.0 then c / v else if c != 0.0 then (a + 1.0) / (2.0 * c) else 0.0
  }

  lemma TwiceOver(b: real, c: real)
    ensures c != 0.0 ==> 2.0 * (b / (2.0 * c)) * c == b
  {
    if c != 0.0 {
      var t := b / (2.0 * c);
      assert t * (2.0 * c) == b;
    }
  }

  lemma Discriminant(a: real, c: real, v: real)
    requires a >= 0.0 && v >= 0.0 && Quadratic(a, c, v, Witness(a, c, v)) >= 0.0
    ensures c * c <= a * v
  {
    if v > 0.0 {
      VertexValue(a, c, v);
      Scaled(c * (c / v), a, v);
      assert c * (c / v) * v == c * c;
    } else {
      TwiceOver(a + 1.0, c);
    }
  }

  /** A quadratic in the slope that is never negative has a non-positive discriminant. */
  lemma CauchySchwarz(ys: seq<real>, xs: seq<real>)
    requires |ys| == |xs|
    ensures Covariance(ys, xs) * Covariance(ys, xs) <= Variance(ys) * Variance(xs)
  {
    var c, vx, vy := Covariance(ys, xs), Variance(xs), Variance(ys);
    var fit := CupedFit(Witness(vy, c, vx), Mean(xs), 0.0);
    VarianceNonNegative(xs);
    VarianceNonNegative(ys);
    VarianceExpansion(ys, xs, fit);
    VarianceNonNegative(Adjusted(ys, xs, fit));
    Discriminant(vy, c, vx);
  }

  lemma QuotientTimes(p: real, d: real)
    requires d != 0.0
    ensures (p / d) * d == p
  {
  }

  /** No adjustment leaves the variance as it is. */
  lemma FlatFit(vy: real, c: real, vx: real, theta: real, q: real)
    requires theta == 0.0 && q == 0.0
    ensures Quadratic(vy, c, vx, theta) == vy * (1.0 - q) <= vy
  {
  }

  /** What the slope takes off the variance is the variance times the reduction. */
  lemma SlopeTakesOff(c: real, vx: real, vy: real, theta: real, q: real)
    requires vx > 0.0 && theta * vx == c && q * (vx * vy) == c * c
    ensures vy * q == c * theta
  {
    assert (vy * q) * vx == q * (vx * vy);
    assert (c * theta) * vx == c * (theta * vx);
    SameAfterScaling(vy * q, c * theta, vx);
  }

  lemma ReductionValue(c: real, vx: real, vy: real, theta: real, q: real)
    requires vx > 0.0 && vy > 0.0 && vx * vy != 0.0 && theta == c / vx && q == c * c / (vx * vy) && 0.0 <= q
    ensures vy - c * theta == vy * (1.0 - q) <= vy
  {
    QuotientTimes(c, vx);
    QuotientTimes(c * c, vx * vy);
    SlopeTakesOff(c, vx, vy, theta, q);
    Distribute(vy, 1.0, -q);
    Scaled(0.0, q, vy);
  }

  /** Residual variance at the fitted slope, from the moments alone. */
  lemma FitValue(c: real, vx: real, vy: real, xbar: real)
    requires vx >= 0.0 && vy >= 0.0 && c * c <= vy * vx
    ensures var fit := FitFromMoments(c, vx, vy, xbar);
            && 0.0 <= fit.varianceReduction <= 1.0
            && Quadratic(vy, c, vx, fit.theta) == vy * (1.0 - fit.varianceReduction) <= vy
  {
    if vx > 0.0 && vy > 0.0 {
      PositiveProduct(vx, vy);
      SquareNonNegative(c);
      BetweenZeroAndOne(c * c, vx * vy);
      VertexValue(vy, c, vx);
      ReductionValue(c, vx, vy, c / vx, c * c / (vx * vy));
    } else {
      var fit := FitFromMoments(c, vx, vy, xbar);
      FlatFit(vy, c, vx, fit.theta, fit.varianceReduction);
    }
  }

  lemma SingletonMean(xs: seq<real>)
    requires |xs| == 1
    ensures Mean(xs) == xs[0]
  {
    assert xs[..0] == [] && Total(xs[..0], Itself) == 0.0;
    assert Sum(xs) == xs[0];
  }

  lemma SingletonMoments(ys: seq<real>, xs: seq<real>)
    requires |ys| == |xs| < 2
    ensures Covariance(ys, xs) == 0.0
  {
    if |ys| == 1 {
      SingletonMean(ys);
      var ps := Products(ys, Mean(ys), xs, Mean(xs));
      assert ps[0] == 0.0 * (xs[0] - Mean(xs));
      SingletonMean(ps);
    }
  }

  /** The quadratic of the moments at the fitted slope. */
  lemma FittedValue(ys: seq<real>, xs: seq<real>)
    requires |ys| == |xs|
    ensures var fit := Fitted(ys, xs);
            && 0.0 <= fit.varianceReduction <= 1.0
            && Quadratic(Variance(ys), Covariance(ys, xs), Variance(xs), fit.theta)
               == Variance(ys) * (1.0 - fit.varianceReduction) <= Variance(ys)
  {
    if |ys| >= 2 {
      VarianceNonNegative(xs);
      VarianceNonNegative(ys);
      CauchySchwarz(ys, xs);
      FitValue(Covariance(ys, xs), Variance(xs), Variance(ys), Mean(xs));
    } else {
      var fit := Fitted(ys, xs);
      FlatFit(Variance(ys), Covariance(ys, xs), Variance(xs), fit.theta, fit.varianceReduction);
    }
  }

  /** The fitted adjustment keeps the sum and shrinks the variance by exactly the reduction it reports. */
  lemma CupedShrinksVariance(ys: seq<real>, xs: seq<real>)
    requires |ys| == |xs|
    ensures var fit := Fitted(ys, xs);
            && Sum(Adjusted(ys, xs, fit)) == Sum(ys)
            && 0.0 <= fit.varianceReduction <= 1.0
            && Variance(Adjusted(ys, xs, fit)) == Variance(ys) * (1.0 - fit.varianceReduction)
            && Variance(Adjusted(ys, xs, fit)) <= Variance(ys)
  {
    var fit := Fitted(ys, xs);
    SumUnchanged(ys, xs, fit);
    VarianceExpansion(ys, xs, fit);
    FittedValue(ys, xs);
  }

  lemma FitIsMinimum(c: real, vx: real, vy: real, xbar: real, t: real)
    requires vx >= 0.0 && vy >= 0.0 && c * c <= vy * vx
    ensures Quadratic(vy, c, vx, FitFromMoments(c, vx, vy, xbar).theta) <= Quadratic(vy, c, vx, t)
  {
    if vx > 0.0 {
      var s := c / vx;
      assert s * vx == c;
      var d := t - s;
      SquareNonNegative(d);
      Scaled(0.0, d * d, vx);
      SquareOfDifference(t, s, 1.0);
      assert t * s * vx == t * c && s * s * vx == s * c;
      assert d * d * vx == t * t * vx - 2.0 * (t * c) + s * c;
      VertexValue(vy, c, vx);
      if vy <= 0.0 && c != 0.0 { SquarePositive(c, c * c); }
    } else if c != 0.0 {
      SquarePositive(c, c * c);
    }
  }

  lemma FittedMinimum(ys: seq<real>, xs: seq<real>, t: real)
    requires |ys| == |xs|
    ensures Quadratic(Variance(ys), Covariance(ys, xs), Variance(xs), Fitted(ys, xs).theta)
            <= Quadratic(Variance(ys), Covariance(ys, xs), Variance(xs), t)
  {
    if |ys| < 2 {
      SingletonMoments(ys, xs);
      SingletonMoments(xs, xs);
    } else {
      VarianceNonNegative(xs);
      VarianceNonNegative(ys);
      CauchySchwarz(ys, xs);
      FitIsMinimum(Covariance(ys, xs), Variance(xs), Variance(ys), Mean(xs), t);
    }
  }

  /** No other slope does better: the fitted one minimises the variance. */
  lemma FittedSlopeIsBest(ys: seq<real>, xs: seq<real>, other: CupedFit)
    requires |ys| == |xs| && other.xbar == Mean(xs)
    ensures Variance(Adjusted(ys, xs, Fitted(ys, xs))) <= Variance(Adjusted(ys, xs, other))
  {
    VarianceExpansion(ys, xs, Fitted(ys, xs));
    VarianceExpansion(ys, xs, other);
    FittedMinimum(ys, xs, other.theta);
  }
}
