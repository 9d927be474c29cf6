/** The Interacting Multiple Model estimator of src/IMM.cpp. Two Kalman filters,
    one per motion mode, run side by side. Each cycle mixes their estimates
    according to a Markov chain over the modes, updates them with the
    measurement, reweighs the modes by the filters' likelihoods and fuses the
    two estimates into one. */
module Imm {
  import opened LinAlg
  import opened Kalman

  /** The number of motion modes, one filter each. */
  const NumFilters: nat := 2

  /** Mode probabilities: nonnegative and summing to one. */
  ghost predicate IsDistribution(mu: Vector)
  {
    |mu| == NumFilters && (forall i | 0 <= i < |mu| :: mu[i] >= 0.0) && Sum(mu) == 1.0
  }

  /** A transition matrix between the modes: positive entries, rows summing to one. */
  ghost predicate IsTransition(p: Matrix)
  {
    IsMatrix(p, NumFilters, NumFilters) &&
    (forall i, j | 0 <= i < NumFilters && 0 <= j < NumFilters :: p[i][j] > 0.0) &&
    (forall i | 0 <= i < NumFilters :: Sum(p[i]) == 1.0)
  }

  lemma Sum2(v: Vector)
    requires |v| == 2
    ensures Sum(v) == v[0] + v[1]
  {
    assert v[..1][..0] == [];
    assert Sum(v[..1]) == v[0];
  }

  // ---------------------------------------------------------------------------
  // Mode bookkeeping

  /** c(j) = Σ_i p(i,j)·μ(i), the predicted probability of mode j: the row
      vector μᵀ·p. */
  function NormalizingConstants(p: Matrix, mu: Vector): (c: Vector)
    requires IsMatrix(p, |mu|, |mu|)
    ensures |c| == |mu|
  {
    VecMat(mu, p, |mu|)
  }

  /** With a transition matrix and a mode distribution, the constants form a
      distribution again, and each of them is positive. */
  lemma NormalizingConstantsDistribution(p: Matrix, mu: Vector)
    requires IsTransition(p) && IsDistribution(mu)
    ensures var c := NormalizingConstants(p, mu);
            IsDistribution(c) && forall j | 0 <= j < NumFilters :: c[j] > 0.0
  {
    var c := NormalizingConstants(p, mu);
    var ones := Ones(NumFilters);
    assert MatVec(p, ones) == ones by {
      forall i | 0 <= i < NumFilters ensures MatVec(p, ones)[i] == 1.0 {
        DotOnes(p[i]);
      }
    }
    VecMatAdjoint(mu, p, NumFilters, ones);
    DotOnes(c);
    DotOnes(mu);
    forall j | 0 <= j < NumFilters ensures c[j] > 0.0 {
      Dot2(mu, Col(p, j));
      Sum2(mu);
      ConvexPositive(mu[0], mu[1], p[0][j], p[1][j]);
    }
  }

  lemma ConvexPositive(a: real, b: real, u: real, w: real)
    requires a >= 0.0 && b >= 0.0 && a + b == 1.0 && u > 0.0 && w > 0.0
    ensures (0.0 + a * u) + b * w > 0.0
  {
    if a > 0.0 {
      assert a * u > 0.0;
      assert b * w >= 0.0;
    } else {
      assert b * w > 0.0;
    }
  }

  /** μMix(i,j) = p(i,j)·μ(i)/c(j): the probability that the target was in
      mode i given that it is now in mode j. */
  function MixingProbabilities(p: Matrix, mu: Vector, c: Vector): (m: Matrix)
    requires IsMatrix(p, |mu|, |mu|) && |c| == |mu|
    requires forall j | 0 <= j < |c| :: c[j] != 0.0
    ensures IsMatrix(m, |mu|, |mu|)
  {
    seq(|mu|, i requires 0 <= i < |mu| =>
      seq(|mu|, j requires 0 <= j < |mu| => p[i][j] * mu[i] / c[j]))
  }

  /** For nonnegative p and μ whose normalizing constants are positive, every
      column of the mixing matrix is a distribution over the earlier mode. */
  lemma MixingProbabilitiesStochastic(p: Matrix, mu: Vector)
    requires IsMatrix(p, NumFilters, NumFilters) && |mu| == NumFilters
    requires forall i, j | 0 <= i < NumFilters && 0 <= j < NumFilters :: p[i][j] >= 0.0
    requires forall i | 0 <= i < NumFilters :: mu[i] >= 0.0
    requires forall j | 0 <= j < NumFilters :: NormalizingConstants(p, mu)[j] > 0.0
    ensures var m := MixingProbabilities(p, mu, NormalizingConstants(p, mu));
            (forall j | 0 <= j < NumFilters :: Sum(Col(m, j)) == 1.0) &&
            (forall i, j | 0 <= i < NumFilters && 0 <= j < NumFilters :: 0.0 <= m[i][j] <= 1.0)
  {
    var c := NormalizingConstants(p, mu);
    var m := MixingProbabilities(p, mu, c);
    forall j | 0 <= j < NumFilters ensures Sum(Col(m, j)) == 1.0 {
      MixingColumn(p, mu, c, j);
    }
    forall i, j | 0 <= i < NumFilters && 0 <= j < NumFilters ensures 0.0 <= m[i][j] <= 1.0 {
      MixingColumn(p, mu, c, j);
    }
  }

  lemma MixingColumn(p: Matrix, mu: Vector, c: Vector, j: nat)
    requires IsMatrix(p, NumFilters, NumFilters) && |mu| == NumFilters && j < NumFilters
    requires p[0][j] >= 0.0 && p[1][j] >= 0.0 && mu[0] >= 0.0 && mu[1] >= 0.0
    requires c == NormalizingConstants(p, mu) && c[0] > 0.0 && c[1] > 0.0
    ensures var m := MixingProbabilities(p, mu, c);
            Sum(Col(m, j)) == 1.0 && 0.0 <= m[0][j] <= 1.0 && 0.0 <= m[1][j] <= 1.0
  {
    var m := MixingProbabilities(p, mu, c);
    var a, b := p[0][j] * mu[0], p[1][j] * mu[1];
    assert c[j] == (0.0 + a) + b by {
      Dot2(mu, Col(p, j));
    }
    assert m[0][j] == a / c[j] && m[1][j] == b / c[j];
    Sum2(Col(m, j));
    assert a >= 0.0 && b >= 0.0;
    ShareOfTotal(a, b, c[j]);
  }

  /** Two nonnegative parts of a positive total: each share lies in [0,1] and
      the shares add up to one. */
  lemma ShareOfTotal(a: real, b: real, t: real)
    requires a >= 0.0 && b >= 0.0 && t == (0.0 + a) + b && t > 0.0
    ensures a / t + b / t == 1.0
    ensures 0.0 <= a / t <= 1.0 && 0.0 <= b / t <= 1.0
  {
    assert a / t + b / t == (a + b) / t;
  }

  /** The Bayes update of the mode probabilities: μ(i) = Λ(i)·c(i)/Σ_j Λ(j)c(j),
      the denominator accumulated from zero. */
  function ModePosterior(lambda: Vector, c: Vector): (mu: Vector)
    requires |lambda| == |c| && Dot(lambda, c) != 0.0
    ensures |mu| == |c|
  {
    seq(|c|, i requires 0 <= i < |c| => lambda[i] * c[i] / Dot(lambda, c))
  }

  /** With nonnegative likelihoods and constants and a positive evidence
      Σ_j Λ(j)c(j), the posterior is a distribution. */
  lemma ModePosteriorIsDistribution(lambda: Vector, c: Vector)
    requires |lambda| == NumFilters && |c| == NumFilters
    requires forall i | 0 <= i < NumFilters :: lambda[i] >= 0.0 && c[i] >= 0.0
    requires Dot(lambda, c) > 0.0
    ensures IsDistribution(ModePosterior(lambda, c))
  {
    var mu := ModePosterior(lambda, c);
    Dot2(lambda, c);
    Sum2(mu);
    assert lambda[0] * c[0] >= 0.0 && lambda[1] * c[1] >= 0.0;
    ShareOfTotal(lambda[0] * c[0], lambda[1] * c[1], Dot(lambda, c));
  }

  /** Positive likelihoods against positive constants give a positive evidence. */
  lemma Evidence(lambda: Vector, c: Vector)
    requires |lambda| == NumFilters && |c| == NumFilters
    requires forall i | 0 <= i < NumFilters :: lambda[i] > 0.0 && c[i] > 0.0
    ensures Dot(lambda, c) > 0.0
  {
    Dot2(lambda, c);
    assert lambda[0] * c[0] > 0.0 && lambda[1] * c[1] > 0.0;
  }

  // ---------------------------------------------------------------------------
  // Fusion of estimates

  ghost predicate AreEstimates(ests: seq<Estimate>)
  {
    forall i | 0 <= i < |ests| :: IsEstimate(ests[i])
  }

  /** Σ_{i<k} w(i)·x_i, accumulated from zero in index order. */
  function FusedMean(ests: seq<Estimate>, w: Vector, k: nat): (r: Vector)
    requires k <= |ests| == |w| && AreEstimates(ests)
    ensures |r| == StateDim
  {
    if k == 0 then ZeroVector(StateDim)
    else VecAdd(FusedMean(ests, w, k - 1), VecScale(w[k - 1], ests[k - 1].x))
  }

  /** Σ_{i<k} w(i)·(P_i + d_i·d_iᵀ) with d_i = x_i − mean: the covariance of
      the mixture about `mean`, accumulated from zero in index order. */
  function FusedCovariance(ests: seq<Estimate>, mean: Vector, w: Vector, k: nat): (r: Matrix)
    requires k <= |ests| == |w| && AreEstimates(ests) && |mean| == StateDim
    ensures IsMatrix(r, StateDim, StateDim)
  {
    if k == 0 then ZeroMatrix(StateDim, StateDim)
    else
      var d := VecSub(ests[k - 1].x, mean);
      MatAdd(FusedCovariance(ests, mean, w, k - 1), MatScale(w[k - 1], MatAdd(ests[k - 1].P, Outer(d, d))))
  }

  /** The moment-matched combination of weighted estimates: the mixture mean and
      the covariance about that mean. */
  function Fused(ests: seq<Estimate>, w: Vector): (e: Estimate)
    requires |ests| == |w| && AreEstimates(ests)
    ensures IsEstimate(e)
  {
    var mean := FusedMean(ests, w, |ests|);
    Estimate(mean, FusedCovariance(ests, mean, w, |ests|))
  }

  /** The fused covariance is symmetric whenever every covariance fused is. */
  lemma {:induction false} FusedCovarianceSymmetric(ests: seq<Estimate>, mean: Vector, w: Vector, k: nat)
    requires k <= |ests| == |w| && AreEstimates(ests) && |mean| == StateDim
    requires forall i | 0 <= i < |ests| :: IsSymmetric(ests[i].P)
    ensures IsSymmetric(FusedCovariance(ests, mean, w, k))
  {
    if k > 0 {
      var d := VecSub(ests[k - 1].x, mean);
      FusedCovarianceSymmetric(ests, mean, w, k - 1);
      OuterSymmetric(d);
      AddSymmetric(ests[k - 1].P, Outer(d, d));
      ScaleSymmetric(w[k - 1], MatAdd(ests[k - 1].P, Outer(d, d)));
      AddSymmetric(FusedCovariance(ests, mean, w, k - 1), MatScale(w[k - 1], MatAdd(ests[k - 1].P, Outer(d, d))));
    }
  }

  /** When all estimates share the state y, the partial mean is y scaled by the
      partial weight sum. */
  lemma {:induction false} FusedMeanOfCommonState(ests: seq<Estimate>, w: Vector, k: nat, y: Vector)
    requires k <= |ests| == |w| && AreEstimates(ests)
    requires |y| == StateDim && forall i | 0 <= i < |ests| :: ests[i].x == y
    ensures FusedMean(ests, w, k) == VecScale(Sum(w[..k]), y)
  {
    if k == 0 {
      assert FusedMean(ests, w, k) == VecScale(0.0, y);
    } else {
      FusedMeanOfCommonState(ests, w, k - 1, y);
      assert w[..k][..k - 1] == w[..k - 1];
      var s := Sum(w[..k - 1]);
      assert Sum(w[..k]) == s + w[k - 1];
      forall l | 0 <= l < StateDim
        ensures FusedMean(ests, w, k)[l] == VecScale(s + w[k - 1], y)[l]
      {
        assert FusedMean(ests, w, k)[l] == s * y[l] + w[k - 1] * y[l];
      }
    }
  }

  /** Fusing estimates that agree on the state, with weights summing to one,
      keeps that state. */
  lemma FusedMeanOfAgreement(ests: seq<Estimate>, w: Vector, y: Vector)
    requires |ests| == |w| && AreEstimates(ests) && Sum(w) == 1.0
    requires |y| == StateDim && forall i | 0 <= i < |ests| :: ests[i].x == y
    ensures Fused(ests, w).x == y
  {
    FusedMeanOfCommonState(ests, w, |ests|, y);
    assert w[..|ests|] == w;
  }

  // ---------------------------------------------------------------------------
  // Mixing as the program performs it

  /** The zero state with zero covariance. */
  const ZeroEstimate: Estimate := Estimate(ZeroVector(StateDim), ZeroMatrix(StateDim, StateDim))

  /** The accumulators and the filters' estimates during the mixing pass. */
  datatype MixState = MixState(mixed: seq<Estimate>, estimates: seq<Estimate>)

  ghost predicate IsMixState(s: MixState)
  {
    |s.mixed| == NumFilters && |s.estimates| == NumFilters &&
    AreEstimates(s.mixed) && AreEstimates(s.estimates)
  }

  /** One run of the inner loop body: estimate `src` weighted by `w` is added to
      accumulator `m`, whose covariance grows by the spread of `src` about the
      partially accumulated mean. */
  function MixStep(m: Estimate, src: Estimate, w: real): (r: Estimate)
    requires IsEstimate(m) && IsEstimate(src)
    ensures IsEstimate(r)
  {
    var x := VecAdd(m.x, VecScale(w, src.x));
    var d := VecSub(src.x, x);
    Estimate(x, MatAdd(m.P, MatScale(w, MatAdd(src.P, Outer(d, d)))))
  }

  /** Run (j, i) of the inner loop body: accumulator j takes the term from the
      current estimate of filter i, then filter j is reinitialised to it. */
  function MixAdvance(s: MixState, muMix: Matrix, j: nat, i: nat): (r: MixState)
    requires IsMixState(s) && IsMatrix(muMix, NumFilters, NumFilters)
    requires j < NumFilters && i < NumFilters
    ensures IsMixState(r)
  {
    var m := MixStep(s.mixed[j], s.estimates[i], muMix[i][j]);
    MixState(s.mixed[j := m], s.estimates[j := m])
  }

  /** The state after the first k runs of the inner loop body, j outer and i
      inner. */
  function MixPrefix(s0: MixState, muMix: Matrix, k: nat): (s: MixState)
    requires IsMixState(s0) && IsMatrix(muMix, NumFilters, NumFilters)
    requires k <= NumFilters * NumFilters
    ensures IsMixState(s)
  {
    if k == 0 then s0
    else MixAdvance(MixPrefix(s0, muMix, k - 1), muMix, (k - 1) / NumFilters, (k - 1) % NumFilters)
  }

  lemma MixPrefixNext(s0: MixState, muMix: Matrix, j: nat, i: nat)
    requires IsMixState(s0) && IsMatrix(muMix, NumFilters, NumFilters)
    requires j < NumFilters && i < NumFilters
    ensures MixPrefix(s0, muMix, 0) == s0
    ensures MixPrefix(s0, muMix, NumFilters * j + i + 1) ==
            MixAdvance(MixPrefix(s0, muMix, NumFilters * j + i), muMix, j, i)
  {
  }

  /** Once row j of runs is complete, filter j holds accumulator j. */
  lemma {:induction false} MixSettles(s0: MixState, muMix: Matrix, k: nat, j: nat)
    requires IsMixState(s0) && IsMatrix(muMix, NumFilters, NumFilters)
    requires k <= NumFilters * NumFilters && NumFilters * (j + 1) <= k
    ensures MixPrefix(s0, muMix, k).estimates[j] == MixPrefix(s0, muMix, k).mixed[j]
  {
    if j != (k - 1) / NumFilters {
      MixSettles(s0, muMix, k - 1, j);
    }
  }

  /** After the whole pass, every filter holds its accumulator. */
  lemma MixedFiltersHoldAccumulators(s0: MixState, muMix: Matrix)
    requires IsMixState(s0) && IsMatrix(muMix, NumFilters, NumFilters)
    ensures var s := MixPrefix(s0, muMix, NumFilters * NumFilters);
            s.estimates == s.mixed
  {
    MixSettles(s0, muMix, NumFilters * NumFilters, 0);
    MixSettles(s0, muMix, NumFilters * NumFilters, 1);
  }

  /** The transition matrix and the mode distribution the estimator starts with. */
  const InitialTransition: Matrix := [[0.9, 0.1], [0.1, 0.9]]
  const InitialModes: Vector := [0.5, 0.5]

  /** The initial parameters are a transition matrix and a mode distribution. */
  lemma InitialParametersWellFormed()
    ensures IsTransition(InitialTransition) && IsDistribution(InitialModes)
  {
    Sum2(InitialTransition[0]);
    Sum2(InitialTransition[1]);
    Sum2(InitialModes);
  }

  /** From the initial modes, the first cycle's mixing matrix is the transition
      matrix itself. */
  lemma FirstMixingProbabilities()
    ensures var c := NormalizingConstants(InitialTransition, InitialModes);
            c == InitialModes &&
            MixingProbabilities(InitialTransition, InitialModes, c) == InitialTransition
  {
    var p, mu := InitialTransition, InitialModes;
    var c := NormalizingConstants(p, mu);
    forall j | 0 <= j < NumFilters ensures c[j] == 0.5 {
      Dot2(mu, Col(p, j));
    }
    assert c == InitialModes;
    var m := MixingProbabilities(p, mu, c);
    Equal2(m, p);
  }

  /** The mixing pass as written, on the first cycle of an estimator whose two
      filters agree on the state [1, 0, 0, 0, 0]: filter 1 ends at 0.19 in the
      first coordinate, while mixing the two agreeing estimates with column 1 of
      the mixing matrix (which sums to one) keeps 1. */
  lemma MixAsWrittenDrifts()
    ensures var y := [1.0, 0.0, 0.0, 0.0, 0.0];
            var e := Estimate(y, ZeroMatrix(StateDim, StateDim));
            var s := MixPrefix(MixState([ZeroEstimate, ZeroEstimate], [e, e]), InitialTransition, NumFilters * NumFilters);
            s.estimates[1].x[0] == 0.19 && Fused([e, e], Col(InitialTransition, 1)).x == y
  {
    var y := [1.0, 0.0, 0.0, 0.0, 0.0];
    var e := Estimate(y, ZeroMatrix(StateDim, StateDim));
    var zero := ZeroEstimate;
    var p := InitialTransition;
    var s0 := MixState([zero, zero], [e, e]);
    assert MixPrefix(s0, p, 0) == s0;
    var m1 := MixStep(zero, e, 0.9);
    var s1 := MixPrefix(s0, p, 1);
    assert s1 == MixState([m1, zero], [m1, e]);
    assert m1.x[0] == 0.9;
    var m2 := MixStep(m1, e, 0.1);
    var s2 := MixPrefix(s0, p, 2);
    assert s2 == MixState([m2, zero], [m2, e]);
    assert m2.x[0] == 1.0;
    var m3 := MixStep(zero, m2, 0.1);
    var s3 := MixPrefix(s0, p, 3);
    assert s3 == MixState([m2, m3], [m2, m3]);
    assert m3.x[0] == 0.1;
    var m4 := MixStep(m3, m3, 0.9);
    assert MixPrefix(s0, p, 4) == MixState([m2, m4], [m2, m4]);
    assert m4.x[0] == 0.19;
    Sum2(Col(p, 1));
    FusedMeanOfAgreement([e, e], Col(p, 1), y);
  }

  // ---------------------------------------------------------------------------
  // The estimator

  class IMM {
    /** The two filters, owned by the estimator (copies of those it was built from). */
    const filters: seq<KalmanFilter>
    /** p(i,j): the probability of switching from mode i to mode j. */
    const p: Matrix
    /** μ(i): the probability of mode i. */
    var muMode: Vector
    /** the normalizing constants c(j) */
    var c: Vector
    /** μMix(i,j) */
    var muMix: Matrix
    /** Λ(i): the likelihood of filter i */
    var lambda: Vector
    /** the mixed estimate meant for each filter */
    var mixed: seq<Estimate>
    /** the fused estimate */
    var x: Vector
    var P: Matrix

    /** The two owned filters are distinct and each keeps its own invariant. */
    ghost predicate FiltersValid()
      reads filters
    {
      |filters| == NumFilters && filters[0] != filters[1] &&
      filters[0].Valid() && filters[1].Valid() &&
      IsEstimate(filters[0].GetEstimate()) && IsEstimate(filters[1].GetEstimate())
    }

    ghost predicate Valid()
      reads this, filters
    {
      FiltersValid() &&
      IsTransition(p) && |muMode| == NumFilters && |c| == NumFilters &&
      IsMatrix(muMix, NumFilters, NumFilters) && |lambda| == NumFilters &&
      |mixed| == NumFilters && AreEstimates(mixed) &&
      IsEstimate(Kalman.Estimate(x, P))
    }

    /** The filters' current estimates. */
    function FilterEstimates(): (ests: seq<Estimate>)
      reads filters
      requires FiltersValid()
      ensures |ests| == NumFilters && AreEstimates(ests)
    {
      [filters[0].GetEstimate(), filters[1].GetEstimate()]
    }

    /** The filters' current likelihoods. */
    function Likelihoods(): (l: Vector)
      reads filters
      requires FiltersValid()
      ensures |l| == NumFilters && forall i | 0 <= i < NumFilters :: l[i] > 0.0
    {
      [filters[0].GetLikelihood(), filters[1].GetLikelihood()]
    }

    /** Holds copies of the two filters. The vectors and matrices Eigen leaves
        uninitialised start at zero. */
    constructor (f1: KalmanFilter, f2: KalmanFilter)
      requires f1.Valid() && f2.Valid()
      ensures Valid() && IsDistribution(muMode)
      ensures p == InitialTransition && muMode == InitialModes
      ensures fresh(filters[0]) && fresh(filters[1])
      ensures filters[0].SameAs(f1) && filters[1].SameAs(f2)
      ensures FilterEstimates() == [f1.GetEstimate(), f2.GetEstimate()]
      ensures c == ZeroVector(NumFilters) && lambda == ZeroVector(NumFilters)
      ensures muMix == ZeroMatrix(NumFilters, NumFilters)
      ensures mixed == [ZeroEstimate, ZeroEstimate]
      ensures x == ZeroVector(StateDim) && P == ZeroMatrix(StateDim, StateDim)
    {
      var g1 := new KalmanFilter.Copy(f1);
      var g2 := new KalmanFilter.Copy(f2);
      filters := [g1, g2];
      p := InitialTransition;
      muMode := InitialModes;
      c := ZeroVector(NumFilters);
      muMix := ZeroMatrix(NumFilters, NumFilters);
      lambda := ZeroVector(NumFilters);
      mixed := [ZeroEstimate, ZeroEstimate];
      x := ZeroVector(StateDim);
      P := ZeroMatrix(StateDim, StateDim);
      new;
      InitialParametersWellFormed();
    }

    method CalculateNormalizingConstants()
      requires Valid()
      modifies this`c
      ensures Valid()
      ensures c == NormalizingConstants(p, muMode)
    {
      // The filters are not touched: their invariant is not needed here.
      hide KalmanFilter.Valid;
      var mu := muMode;
      c := ZeroVector(NumFilters);
      for j := 0 to NumFilters
        invariant |c| == NumFilters
        invariant forall l | 0 <= l < j :: c[l] == Dot(mu, Col(p, l))
        invariant forall l | j <= l < NumFilters :: c[l] == 0.0
      {
        var col := Col(p, j);
        for i := 0 to NumFilters
          invariant |c| == NumFilters
          invariant forall l | 0 <= l < j :: c[l] == Dot(mu, Col(p, l))
          invariant forall l | j < l < NumFilters :: c[l] == 0.0
          invariant c[j] == Dot(mu[..i], col[..i])
        {
          DotPrefix(mu, col, i);
          assert col[i] == p[i][j];
          c := c[j := c[j] + p[i][j] * mu[i]];
        }
        assert mu[..NumFilters] == mu && col[..NumFilters] == col;
      }
    }

    method CalculateMixingProbabilities()
      requires Valid()
      requires forall j | 0 <= j < NumFilters :: NormalizingConstants(p, muMode)[j] != 0.0
      modifies this`c, this`muMix
      ensures Valid()
      ensures c == NormalizingConstants(p, muMode)
      ensures muMix == MixingProbabilities(p, muMode, c)
    {
      hide KalmanFilter.Valid;
      CalculateNormalizingConstants();
      ghost var target := MixingProbabilities(p, muMode, c);
      for i := 0 to NumFilters
        invariant c == NormalizingConstants(p, muMode)
        invariant IsMatrix(muMix, NumFilters, NumFilters)
        invariant forall l, m | 0 <= l < i && 0 <= m < NumFilters :: muMix[l][m] == target[l][m]
      {
        for j := 0 to NumFilters
          invariant c == NormalizingConstants(p, muMode)
          invariant IsMatrix(muMix, NumFilters, NumFilters)
          invariant forall l, m | 0 <= l < i && 0 <= m < NumFilters :: muMix[l][m] == target[l][m]
          invariant forall m | 0 <= m < j :: muMix[i][m] == target[i][m]
        {
          muMix := muMix[i := muMix[i][j := p[i][j] * muMode[i] / c[j]]];
        }
      }
      Equal2(muMix, target);
    }

    /** The mixing pass as the program performs it. The accumulators carry over
        from the previous cycle, and filter j is reinitialised after every
        single term, so a later row reads filters that are already mixed. */
    method Mix()
      requires Valid()
      modifies this`mixed, filters`x, filters`P
      ensures Valid()
      ensures var s := MixPrefix(MixState(old(mixed), old(FilterEstimates())), muMix, NumFilters * NumFilters);
              mixed == s.mixed && FilterEstimates() == s.estimates
      ensures FilterEstimates() == mixed
    {
      hide KalmanFilter.Valid, FilterEstimates, MixPrefix;
      ghost var s0 := MixState(mixed, FilterEstimates());
      MixPrefixNext(s0, muMix, 0, 0);
      for j := 0 to NumFilters
        invariant Valid()
        invariant MixState(mixed, FilterEstimates()) == MixPrefix(s0, muMix, NumFilters * j)
      {
        MixRow(s0, j);
      }
      MixedFiltersHoldAccumulators(s0, muMix);
    }

    /** The inner loop of the mixing pass for accumulator j. */
    method MixRow(ghost s0: MixState, j: nat)
      requires Valid() && IsMixState(s0) && j < NumFilters
      requires MixState(mixed, FilterEstimates()) == MixPrefix(s0, muMix, NumFilters * j)
      modifies this`mixed, filters`x, filters`P
      ensures Valid()
      ensures MixState(mixed, FilterEstimates()) == MixPrefix(s0, muMix, NumFilters * (j + 1))
    {
      hide KalmanFilter.Valid, MixPrefix;
      for i := 0 to NumFilters
        invariant Valid()
        invariant MixState(mixed, FilterEstimates()) == MixPrefix(s0, muMix, NumFilters * j + i)
      {
        MixPrefixNext(s0, muMix, j, i);
        MixTerm(j, i);
      }
    }

    /** One run of the inner loop body of the mixing pass. */
    method MixTerm(j: nat, i: nat)
      requires Valid() && j < NumFilters && i < NumFilters
      modifies this`mixed, filters`x, filters`P
      ensures Valid()
      ensures MixState(mixed, FilterEstimates()) == MixAdvance(old(MixState(mixed, FilterEstimates())), muMix, j, i)
    {
      hide KalmanFilter.Valid;
      ghost var before := MixState(mixed, FilterEstimates());
      var xi := filters[i].GetEstimate().x;
      var acc := mixed[j];
      mixed := mixed[j := Kalman.Estimate(VecAdd(acc.x, VecScale(muMix[i][j], xi)), acc.P)];
      var Pi := filters[i].GetEstimate().P;
      var temp := VecSub(xi, mixed[j].x);
      mixed := mixed[j := Kalman.Estimate(mixed[j].x, MatAdd(mixed[j].P, MatScale(muMix[i][j], MatAdd(Pi, Outer(temp, temp)))))];
      assert mixed == before.mixed[j := MixStep(acc, before.estimates[i], muMix[i][j])];
      filters[j].Reinitialize(mixed[j]);
    }

    /** Standard IMM mixing: every mixed estimate is fused from the estimates
        the filters held before the pass, and only then are the filters
        reinitialised. */
    method MixAsIntended()
      requires Valid()
      modifies this`mixed, filters`x, filters`P
      ensures Valid()
      ensures mixed == [Fused(old(FilterEstimates()), Col(muMix, 0)), Fused(old(FilterEstimates()), Col(muMix, 1))]
      ensures FilterEstimates() == mixed
    {
      hide KalmanFilter.Valid;
      var ests := FilterEstimates();
      mixed := [Fused(ests, Col(muMix, 0)), Fused(ests, Col(muMix, 1))];
      filters[0].Reinitialize(mixed[0]);
      filters[1].Reinitialize(mixed[1]);
    }

    /** The likelihood collection as written: the range-for updates copies of
        the filters, which are then dropped, so each Λ(i) is the likelihood the
        stored filter i had before this measurement. */
    method GetLikelihoods(z: Vector)
      requires Valid() && |z| == MeasurementDim
      modifies this`lambda
      ensures Valid()
      ensures unchanged(filters)
      ensures lambda == Likelihoods()
    {
      hide KalmanFilter.Valid, PredictedCovariance, InnovationCovariance, Gain, CorrectedCovariance,
        CorrectedState, KalmanFilter.ConvertedCovariance, KalmanFilter.CartesianOf, MatVec, VecSub;
      for k := 0 to NumFilters
        invariant Valid() && unchanged(filters)
      {
        var copy := new KalmanFilter.Copy(filters[k]);
        var discarded := copy.Update(z);
      }
      for i := 0 to NumFilters
        invariant Valid() && unchanged(filters)
        invariant forall l | 0 <= l < i :: lambda[l] == Likelihoods()[l]
      {
        lambda := lambda[i := filters[i].GetLikelihood()];
      }
    }

    /** Likelihood collection as intended: the stored filters themselves take
        the measurement. */
    method UpdateFilterLikelihoods(z: Vector)
      requires Valid() && |z| == MeasurementDim
      modifies this`lambda, filters
      ensures Valid()
      ensures forall k | 0 <= k < NumFilters :: filters[k].UpdatedFrom(old(FilterEstimates())[k], old(filters[k].t), z)
      ensures lambda == Likelihoods()
    {
      hide KalmanFilter.Valid, PredictedCovariance, InnovationCovariance, Gain, CorrectedCovariance,
        CorrectedState, KalmanFilter.ConvertedCovariance, KalmanFilter.CartesianOf, KalmanFilter.Predict,
        KalmanFilter.SystemMatrix, KalmanFilter.GetLikelihood, MatVec, VecSub;
      ghost var prior := FilterEstimates();
      ghost var t0, t1 := filters[0].t, filters[1].t;
      var e0 := filters[0].Update(z);
      assert filters[0].UpdatedFrom(prior[0], t0, z);
      var e1 := filters[1].Update(z);
      assert filters[1].UpdatedFrom(prior[1], t1, z);
      lambda := Likelihoods();
    }

    /** The Bayes update of the mode probabilities. The program's accumulator is
        declared without an initial value; it is taken as zero. */
    method UpdateModeProbabilities()
      requires Valid() && Dot(lambda, c) != 0.0
      modifies this`muMode
      ensures Valid()
      ensures muMode == ModePosterior(lambda, c)
    {
      hide KalmanFilter.Valid, FiltersValid;
      var total := 0.0;
      for j := 0 to NumFilters
        invariant unchanged(this)
        invariant total == Dot(lambda[..j], c[..j])
      {
        DotPrefix(lambda, c, j);
        total := total + lambda[j] * c[j];
      }
      assert lambda[..NumFilters] == lambda && c[..NumFilters] == c;
      for i := 0 to NumFilters
        invariant |muMode| == NumFilters
        invariant forall l | 0 <= l < i :: muMode[l] == ModePosterior(lambda, c)[l]
      {
        muMode := muMode[i := lambda[i] * c[i] / total];
      }
    }

    /** Fuses the filters' estimates, weighted by the mode probabilities, into
        the estimator's output. */
    method Estimate()
      requires Valid()
      modifies this`x, this`P
      ensures Valid()
      ensures x == FusedMean(FilterEstimates(), muMode, NumFilters)
      ensures P == FusedCovariance(FilterEstimates(), x, muMode, NumFilters)
    {
      hide KalmanFilter.Valid;
      ghost var ests := FilterEstimates();
      x := ZeroVector(StateDim);
      P := ZeroMatrix(StateDim, StateDim);
      for i := 0 to NumFilters
        invariant P == ZeroMatrix(StateDim, StateDim)
        invariant x == FusedMean(ests, muMode, i)
      {
        var xi := filters[i].GetEstimate().x;
        x := VecAdd(x, VecScale(muMode[i], xi));
      }
      for i := 0 to NumFilters
        invariant x == FusedMean(ests, muMode, NumFilters)
        invariant P == FusedCovariance(ests, x, muMode, i)
      {
        var xi := filters[i].GetEstimate().x;
        var temp := VecSub(xi, x);
        var Pi := filters[i].GetEstimate().P;
        P := MatAdd(P, MatScale(muMode[i], MatAdd(Pi, Outer(temp, temp))));
      }
    }

    /** One cycle of the estimator as the program runs it: mixing
        probabilities, the mixing pass, likelihoods, mode probabilities and
        fusion, in that order. The result is the fused estimate. */
    method Update(z: Vector) returns (estimate: Estimate)
      requires Valid() && IsDistribution(muMode) && |z| == MeasurementDim
      modifies this`c, this`muMix, this`mixed, this`lambda, this`muMode, this`x, this`P, filters`x, filters`P
      ensures Valid() && IsDistribution(muMode)
      ensures c == NormalizingConstants(p, old(muMode)) && forall j | 0 <= j < NumFilters :: c[j] > 0.0
      ensures muMix == MixingProbabilities(p, old(muMode), c)
      ensures var s := MixPrefix(MixState(old(mixed), old(FilterEstimates())), muMix, NumFilters * NumFilters);
              mixed == s.mixed && FilterEstimates() == s.estimates
      ensures lambda == Likelihoods() && Dot(lambda, c) > 0.0 && muMode == ModePosterior(lambda, c)
      ensures x == FusedMean(FilterEstimates(), muMode, NumFilters)
      ensures P == FusedCovariance(FilterEstimates(), x, muMode, NumFilters)
      ensures estimate == Kalman.Estimate(x, P)
    {
      hide KalmanFilter.Valid, FilterEstimates, Likelihoods, MixPrefix, MixingProbabilities,
        ModePosterior, FusedMean, FusedCovariance;
      NormalizingConstantsDistribution(p, muMode);
      CalculateMixingProbabilities();
      Mix();
      GetLikelihoods(z);
      Evidence(lambda, c);
      UpdateModeProbabilities();
      ModePosteriorIsDistribution(lambda, c);
      Estimate();
      estimate := Kalman.Estimate(x, P);
    }

    /** One cycle with standard mixing and with the stored filters taking the
        measurement. */
    method UpdateAsIntended(z: Vector) returns (estimate: Estimate)
      requires Valid() && IsDistribution(muMode) && |z| == MeasurementDim
      modifies this`c, this`muMix, this`mixed, this`lambda, this`muMode, this`x, this`P, filters
      ensures Valid() && IsDistribution(muMode)
      ensures c == NormalizingConstants(p, old(muMode)) && forall j | 0 <= j < NumFilters :: c[j] > 0.0
      ensures muMix == MixingProbabilities(p, old(muMode), c)
      ensures mixed == [Fused(old(FilterEstimates()), Col(muMix, 0)), Fused(old(FilterEstimates()), Col(muMix, 1))]
      ensures forall k | 0 <= k < NumFilters :: filters[k].UpdatedFrom(mixed[k], old(filters[k].t), z)
      ensures lambda == Likelihoods() && Dot(lambda, c) > 0.0 && muMode == ModePosterior(lambda, c)
      ensures x == FusedMean(FilterEstimates(), muMode, NumFilters)
      ensures P == FusedCovariance(FilterEstimates(), x, muMode, NumFilters)
      ensures estimate == Kalman.Estimate(x, P)
    {
      hide KalmanFilter.Valid, FilterEstimates, Likelihoods, MixingProbabilities, ModePosterior,
        FusedMean, FusedCovariance, Fused, CorrectedState, KalmanFilter.CartesianOf, KalmanFilter.Predict,
        KalmanFilter.UpdatedFrom;
      NormalizingConstantsDistribution(p, muMode);
      CalculateMixingProbabilities();
      MixAsIntended();
      UpdateFilterLikelihoods(z);
      Evidence(lambda, c);
      UpdateModeProbabilities();
      ModePosteriorIsDistribution(lambda, c);
      Estimate();
      estimate := Kalman.Estimate(x, P);
    }
  }

  /** The drift of the mixing pass on a freshly built estimator: both of its
      filters are copies of one filter at [1, 0, 0, 0, 0] with zero covariance,
      and after the first cycle's mixing probabilities and mixing pass filter 1
      holds 0.19 in the first coordinate. */
  method FreshEstimatorDrifts(f: KalmanFilter) returns (x0: real)
    requires f.Valid() && f.GetEstimate() == Estimate([1.0, 0.0, 0.0, 0.0, 0.0], ZeroMatrix(StateDim, StateDim))
    ensures x0 == 0.19
  {
    var imm := new IMM(f, f);
    FirstMixingProbabilities();
    imm.CalculateMixingProbabilities();
    imm.Mix();
    MixAsWrittenDrifts();
    x0 := imm.filters[1].GetEstimate().x[0];
  }
}
