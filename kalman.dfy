/** A single Kalman filter of the tracker (src/KalmanFilter.cpp). The state is
    [x, ẋ, y, ẏ, ω] and measurements arrive as (range, bearing). A measurement is
    converted to Cartesian coordinates, debiased when it is far away, before each
    update. The system-matrix generator and the state predictor are function
    values fixed at construction. The trigonometric functions, exp and the matrix
    inverse come from a `Library`. */
module Kalman {
  import opened LinAlg
  import opened Transcendental

  const StateDim: nat := 5
  const MeasurementDim: nat := 2
  /** Above this value of range × validity constant, conversion debiases. */
  const DebiasThreshold: real := 0.4

  /** A state estimate with its covariance: the pair the filter hands out. */
  datatype Estimate = Estimate(x: Vector, P: Matrix)

  ghost predicate IsEstimate(e: Estimate)
  {
    |e.x| == StateDim && IsMatrix(e.P, StateDim, StateDim)
  }

  // ---------------------------------------------------------------------------
  // The covariance and state recursions, as functions of the matrices involved

  /** F·P·Fᵀ + Q */
  function PredictedCovariance(F: Matrix, P: Matrix, Q: Matrix): (r: Matrix)
    requires IsMatrix(F, 5, 5) && IsMatrix(P, 5, 5) && IsMatrix(Q, 5, 5)
    ensures IsMatrix(r, 5, 5)
  {
    MatAdd(Mul(Mul(F, P), Transpose(F)), Q)
  }

  /** S = R + H·P·Hᵀ, the covariance of the predicted measurement. */
  function InnovationCovariance(R: Matrix, H: Matrix, P: Matrix): (r: Matrix)
    requires IsMatrix(R, 2, 2) && IsMatrix(H, 2, 5) && IsMatrix(P, 5, 5)
    ensures IsMatrix(r, 2, 2)
  {
    MatAdd(R, Mul(Mul(H, P), Transpose(H)))
  }

  /** W = P·Hᵀ·S⁻¹ */
  function Gain(P: Matrix, H: Matrix, S: Matrix, lib: Library): (r: Matrix)
    requires IsMatrix(P, 5, 5) && IsMatrix(H, 2, 5) && IsMatrix(S, 2, 2) && Lawful(lib)
    ensures IsMatrix(r, 5, 2)
  {
    Mul(Mul(P, Transpose(H)), Inverse(lib, S))
  }

  /** P − W·S·Wᵀ */
  function CorrectedCovariance(P: Matrix, W: Matrix, S: Matrix): (r: Matrix)
    requires IsMatrix(P, 5, 5) && IsMatrix(W, 5, 2) && IsMatrix(S, 2, 2)
    ensures IsMatrix(r, 5, 5)
  {
    MatSub(P, Mul(Mul(W, S), Transpose(W)))
  }

  /** x̂ + W·(z − H·x̂) for the predicted state x̂. */
  function CorrectedState(xPred: Vector, W: Matrix, H: Matrix, z: Vector): (r: Vector)
    requires |xPred| == 5 && IsMatrix(W, 5, 2) && IsMatrix(H, 2, 5) && |z| == 2
    ensures |r| == 5
  {
    VecAdd(xPred, MatVec(W, VecSub(z, MatVec(H, xPred))))
  }

  /** One covariance cycle keeps every covariance symmetric. P − W·S·Wᵀ needs
      only a symmetric S, whatever the inverse returns. */
  lemma CovarianceCycleSymmetric(F: Matrix, P: Matrix, Q: Matrix, R: Matrix, H: Matrix, lib: Library)
    requires IsMatrix(F, 5, 5) && IsMatrix(P, 5, 5) && IsMatrix(Q, 5, 5)
    requires IsMatrix(R, 2, 2) && IsMatrix(H, 2, 5) && Lawful(lib)
    requires IsSymmetric(P) && IsSymmetric(Q) && IsSymmetric(R)
    ensures var Pp := PredictedCovariance(F, P, Q);
            var S := InnovationCovariance(R, H, Pp);
            IsSymmetric(Pp) && IsSymmetric(S) &&
            IsSymmetric(CorrectedCovariance(Pp, Gain(Pp, H, S, lib), S))
  {
    var Pp := PredictedCovariance(F, P, Q);
    Congruence(F, P, 5, 5);
    AddSymmetric(Mul(Mul(F, P), Transpose(F)), Q);
    var S := InnovationCovariance(R, H, Pp);
    Congruence(H, Pp, 2, 5);
    AddSymmetric(R, Mul(Mul(H, Pp), Transpose(H)));
    var W := Gain(Pp, H, S, lib);
    Congruence(W, S, 5, 2);
    SubSymmetric(Pp, Mul(Mul(W, S), Transpose(W)));
  }

  /** When the measurement is exactly the predicted one, the update keeps the
      prediction. */
  lemma {:induction false} ZeroInnovationKeepsPrediction(xPred: Vector, W: Matrix, H: Matrix, z: Vector)
    requires |xPred| == 5 && IsMatrix(W, 5, 2) && IsMatrix(H, 2, 5) && |z| == 2
    requires z == MatVec(H, xPred)
    ensures CorrectedState(xPred, W, H, z) == xPred
  {
    var zero := VecSub(z, MatVec(H, xPred));
    assert zero == ZeroVector(2);
    forall i | 0 <= i < 5 ensures MatVec(W, zero)[i] == 0.0 {
      ZeroDot(2, W[i]);
      DotComm(W[i], zero);
    }
  }

  // ---------------------------------------------------------------------------
  // The initial covariance

  /** The covariance Initialize seeds from the converted variances Rx and Ry. */
  function InitialCovariance(Rx: real, Ry: real, Ts: real): (r: Matrix)
    requires Ts != 0.0
    ensures IsMatrix(r, 5, 5)
  {
    [[Rx,      Rx / Ts,               0.0,     0.0,                   0.0],
     [Rx / Ts, 2.0 * Rx / (Ts * Ts),  0.0,     0.0,                   0.0],
     [0.0,     0.0,                   Ry,      Ry / Ts,               0.0],
     [0.0,     0.0,                   Ry / Ts, 2.0 * Ry / (Ts * Ts),  0.0],
     [0.0,     0.0,                   0.0,     0.0,                   Rx]]
  }

  /** The 2 × 2 block of `m` starting at row and column k. */
  function Block(m: Matrix, k: nat): (r: Matrix)
    requires k + 1 < |m| && |m[k]| > k + 1 && |m[k + 1]| > k + 1
    ensures IsMatrix(r, 2, 2)
  {
    [[m[k][k], m[k][k + 1]], [m[k + 1][k], m[k + 1][k + 1]]]
  }

  /** The covariance of (z1, (z1 − z0)/Ts) when z0 and z1 are independent
      readings of variance rv: J·diag(rv, rv)·Jᵀ with J the finite-difference map. */
  function FiniteDifferenceCovariance(rv: real, Ts: real): (r: Matrix)
    requires Ts != 0.0
  {
    var J := [[0.0, 1.0], [-1.0 / Ts, 1.0 / Ts]];
    Mul(Mul(J, [[rv, 0.0], [0.0, rv]]), Transpose(J))
  }

  lemma Dot2(u: Vector, w: Vector)
    requires |u| == 2 && |w| == 2
    ensures Dot(u, w) == (0.0 + u[0] * w[0]) + u[1] * w[1]
  {
    var u1, w1 := u[..1], w[..1];
    assert u1[..0] == [] && w1[..0] == [];
    assert Dot(u1, w1) == 0.0 + u1[0] * w1[0];
    assert Dot(u, w) == Dot(u1, w1) + u[1] * w[1];
  }

  /** The entries of a 2 × 2 product. */
  lemma Mul2(a: Matrix, b: Matrix)
    requires IsMatrix(a, 2, 2) && IsMatrix(b, 2, 2)
    ensures var m := Mul(a, b);
            IsMatrix(m, 2, 2) &&
            m[0][0] == a[0][0] * b[0][0] + a[0][1] * b[1][0] &&
            m[0][1] == a[0][0] * b[0][1] + a[0][1] * b[1][1] &&
            m[1][0] == a[1][0] * b[0][0] + a[1][1] * b[1][0] &&
            m[1][1] == a[1][0] * b[0][1] + a[1][1] * b[1][1]
  {
    var m := Mul(a, b);
    assert Width(b) == 2;
    var c0, c1 := Col(b, 0), Col(b, 1);
    assert c0 == [b[0][0], b[1][0]] && c1 == [b[0][1], b[1][1]];
    Dot2(a[0], c0);
    Dot2(a[0], c1);
    Dot2(a[1], c0);
    Dot2(a[1], c1);
    assert m[0] == VecMat(a[0], b, 2);
    assert m[1] == VecMat(a[1], b, 2);
  }

  /** A 2 × 2 matrix equals the literal of its entries. */
  lemma Literal2(m: Matrix, a: real, b: real, c: real, d: real)
    requires IsMatrix(m, 2, 2)
    requires m[0][0] == a && m[0][1] == b && m[1][0] == c && m[1][1] == d
    ensures m == [[a, b], [c, d]]
  {
    assert m[0] == [a, b];
    assert m[1] == [c, d];
  }

  /** Two 2 × 2 matrices with equal entries are equal. */
  lemma Equal2(m: Matrix, n: Matrix)
    requires IsMatrix(m, 2, 2) && IsMatrix(n, 2, 2)
    requires m[0][0] == n[0][0] && m[0][1] == n[0][1] && m[1][0] == n[1][0] && m[1][1] == n[1][1]
    ensures m == n
  {
    assert m[0] == n[0];
    assert m[1] == n[1];
  }

  lemma Transpose2(a: Matrix)
    requires IsMatrix(a, 2, 2)
    ensures Transpose(a) == [[a[0][0], a[1][0]], [a[0][1], a[1][1]]]
  {
    assert Width(a) == 2;
    assert Col(a, 0) == [a[0][0], a[1][0]];
    assert Col(a, 1) == [a[0][1], a[1][1]];
  }

  /** Initialize's covariance is, in each position/velocity block, the exact
      finite-difference propagation of the measurement variance; the two blocks
      are uncorrelated and the turn-rate variance is Rx. */
  lemma InitialCovarianceIsFiniteDifference(Rx: real, Ry: real, Ts: real)
    requires Ts != 0.0
    ensures var P := InitialCovariance(Rx, Ry, Ts);
            Block(P, 0) == FiniteDifferenceCovariance(Rx, Ts) &&
            Block(P, 2) == FiniteDifferenceCovariance(Ry, Ts) &&
            (forall i, j | 0 <= i < 2 && 2 <= j < 5 :: P[i][j] == 0.0 && P[j][i] == 0.0) &&
            (forall i | 2 <= i < 4 :: P[i][4] == 0.0 && P[4][i] == 0.0) &&
            P[4][4] == Rx && IsSymmetric(P)
  {
    FiniteDifferenceEntries(Rx, Ts);
    FiniteDifferenceEntries(Ry, Ts);
  }

  /** The entries of J·diag(rv, rv)·Jᵀ. */
  lemma FiniteDifferenceEntries(rv: real, Ts: real)
    requires Ts != 0.0
    ensures FiniteDifferenceCovariance(rv, Ts) == [[rv, rv / Ts], [rv / Ts, 2.0 * rv / (Ts * Ts)]]
  {
    var J := [[0.0, 1.0], [-1.0 / Ts, 1.0 / Ts]];
    var JD := [[0.0, rv], [-rv / Ts, rv / Ts]];
    FiniteDifferenceFirstFactor(rv, Ts);
    var Jt := [[0.0, -1.0 / Ts], [1.0, 1.0 / Ts]];
    Transpose2(J);
    Mul2(JD, Jt);
    assert (-rv / Ts) * (-1.0 / Ts) == rv / (Ts * Ts) && (rv / Ts) * (1.0 / Ts) == rv / (Ts * Ts);
    Literal2(Mul(JD, Jt), rv, rv / Ts, rv / Ts, 2.0 * rv / (Ts * Ts));
  }

  lemma FiniteDifferenceFirstFactor(rv: real, Ts: real)
    requires Ts != 0.0
    ensures Mul([[0.0, 1.0], [-1.0 / Ts, 1.0 / Ts]], [[rv, 0.0], [0.0, rv]]) == [[0.0, rv], [-rv / Ts, rv / Ts]]
  {
    var J := [[0.0, 1.0], [-1.0 / Ts, 1.0 / Ts]];
    var D := [[rv, 0.0], [0.0, rv]];
    Mul2(J, D);
    assert (-1.0 / Ts) * rv == -rv / Ts && (1.0 / Ts) * rv == rv / Ts;
    Literal2(Mul(J, D), 0.0, rv, -rv / Ts, rv / Ts);
  }

  // ---------------------------------------------------------------------------
  // The near-field conversion covariance

  /** R in the conversion's near-field branch, from the range r, sin θ, cos θ
      and the noise deviations σR and σθ. */
  function NearFieldCovariance(range: real, s: real, c: real, sigmaR: real, sigmaTheta: real): (r: Matrix)
    ensures IsMatrix(r, 2, 2) && IsSymmetric(r)
  {
    var sigRSquared, sigThetaSquared := sigmaR * sigmaR, sigmaTheta * sigmaTheta;
    var r01 := (sigRSquared - range * range * sigThetaSquared) * s * c;
    [[range * range * sigThetaSquared * s * s + sigRSquared * c * c, r01],
     [r01, range * range * sigThetaSquared * c * c + sigRSquared * s * s]]
  }

  /** Jacobian of (r, θ) ↦ (r cos θ, r sin θ), from r, sin θ and cos θ. */
  function PolarJacobian(range: real, s: real, c: real): (J: Matrix)
    ensures IsMatrix(J, 2, 2)
  {
    [[c, -range * s], [s, range * c]]
  }

  /** The covariance diag(σR², σθ²) of independent range and bearing noise. */
  function PolarNoise(sigmaR: real, sigmaTheta: real): (d: Matrix)
    ensures IsMatrix(d, 2, 2) && IsSymmetric(d)
  {
    [[sigmaR * sigmaR, 0.0], [0.0, sigmaTheta * sigmaTheta]]
  }

  /** The near-field formula is J·diag(σR², σθ²)·Jᵀ. */
  lemma PolarPropagation(range: real, s: real, c: real, sigmaR: real, sigmaTheta: real)
    ensures var J := PolarJacobian(range, s, c);
            Mul(Mul(J, PolarNoise(sigmaR, sigmaTheta)), Transpose(J)) ==
            NearFieldCovariance(range, s, c, sigmaR, sigmaTheta)
  {
    var J := PolarJacobian(range, s, c);
    var JD := PolarFirstFactorEntries(range, s, c, sigmaR, sigmaTheta);
    PolarFirstFactor(range, s, c, sigmaR, sigmaTheta);
    Transpose2(J);
    var Jt := Transpose(J);
    Mul2(JD, Jt);
    var m, r := Mul(JD, Jt), NearFieldCovariance(range, s, c, sigmaR, sigmaTheta);
    assert m[0][0] == r[0][0];
    assert m[0][1] == r[0][1];
    assert m[1][0] == r[1][0];
    assert m[1][1] == r[1][1];
    Equal2(m, r);
  }

  /** J·diag(σR², σθ²), entry by entry. */
  function PolarFirstFactorEntries(range: real, s: real, c: real, sigmaR: real, sigmaTheta: real): (m: Matrix)
    ensures IsMatrix(m, 2, 2)
  {
    var a, b := sigmaR * sigmaR, sigmaTheta * sigmaTheta;
    [[c * a, -range * s * b], [s * a, range * c * b]]
  }

  lemma PolarFirstFactor(range: real, s: real, c: real, sigmaR: real, sigmaTheta: real)
    ensures Mul(PolarJacobian(range, s, c), PolarNoise(sigmaR, sigmaTheta)) ==
            PolarFirstFactorEntries(range, s, c, sigmaR, sigmaTheta)
  {
    Mul2(PolarJacobian(range, s, c), PolarNoise(sigmaR, sigmaTheta));
    Equal2(Mul(PolarJacobian(range, s, c), PolarNoise(sigmaR, sigmaTheta)), PolarFirstFactorEntries(range, s, c, sigmaR, sigmaTheta));
  }

  /** With sin² + cos² = 1 the near-field R has a nonnegative diagonal and
      determinant (σR·σθ·r)². */
  lemma NearFieldDeterminant(range: real, s: real, c: real, sigmaR: real, sigmaTheta: real)
    requires s * s + c * c == 1.0
    ensures var r := NearFieldCovariance(range, s, c, sigmaR, sigmaTheta);
            r[0][0] >= 0.0 && r[1][1] >= 0.0 &&
            r[0][0] * r[1][1] - r[0][1] * r[1][0] == (sigmaR * sigmaTheta * range) * (sigmaR * sigmaTheta * range)
  {
    var a, b := sigmaR * sigmaR, range * range * sigmaTheta * sigmaTheta;
    var r := NearFieldCovariance(range, s, c, sigmaR, sigmaTheta);
    assert r[0][0] == b * (s * s) + a * (c * c);
    assert r[1][1] == b * (c * c) + a * (s * s);
    assert r[0][1] == (a - b) * (s * c);
    assert r[0][0] * r[1][1] - r[0][1] * r[1][0] == a * b * (s * s + c * c) * (s * s + c * c);
  }

  // ---------------------------------------------------------------------------
  // The filter

  class KalmanFilter {
    const sensorState: Vector
    const sigmaR: real
    const sigmaTheta: real
    const Ts: real
    const generateSystemMatrix: Vector -> Matrix
    const H: Matrix
    const Q: Matrix
    const predictState: Vector -> Vector
    const validityConstant: real
    const initialR: Matrix
    const lib: Library

    var R: Matrix
    var x: Vector
    var P: Matrix
    var F: Matrix
    var S: Matrix
    var W: Matrix
    /** the predicted measurement H·x̂ */
    var z: Vector
    /** the residual */
    var v: Vector
    var zReal: Vector
    /** the number of completed updates */
    var t: int

    /** The configuration fixed at construction is well formed. */
    ghost predicate Configured()
    {
      |sensorState| == StateDim && sigmaR != 0.0 && Lawful(lib) &&
      IsMatrix(H, 2, 5) && IsMatrix(Q, 5, 5) && IsMatrix(initialR, 2, 2) &&
      (forall y: Vector {:trigger SystemMatrix(y)} | |y| == StateDim :: IsMatrix(SystemMatrix(y), 5, 5)) &&
      (forall y: Vector {:trigger Predict(y)} | |y| == StateDim :: |Predict(y)| == StateDim)
    }

    /** The system matrix the motion model supplies at state y. */
    function SystemMatrix(y: Vector): Matrix
    {
      generateSystemMatrix(y)
    }

    /** The motion model's prediction from state y. */
    function Predict(y: Vector): Vector
    {
      predictState(y)
    }

    ghost predicate Valid()
      reads this`R, this`x, this`P, this`F, this`S, this`W, this`z, this`v, this`zReal
    {
      Configured() && IsMatrix(R, 2, 2) && IsEstimate(Estimate(x, P)) &&
      IsMatrix(F, 5, 5) && IsMatrix(S, 2, 2) && IsMatrix(W, 5, 2) &&
      |z| == 2 && |v| == 2 && |zReal| == 2
    }

    /** The matrices Eigen leaves uninitialised start at zero; the counter starts
        at 0 as its declaration says. */
    constructor (sensorState: Vector, sigmaR: real, sigmaTheta: real, Ts: real,
                 generateSystemMatrix: Vector -> Matrix, R: Matrix, H: Matrix, Q: Matrix,
                 predictState: Vector -> Vector, lib: Library)
      requires sigmaR != 0.0
      requires |sensorState| == StateDim && Lawful(lib)
      requires IsMatrix(R, 2, 2) && IsMatrix(H, 2, 5) && IsMatrix(Q, 5, 5)
      requires forall y: Vector {:trigger generateSystemMatrix(y)} | |y| == StateDim :: IsMatrix(generateSystemMatrix(y), 5, 5)
      requires forall y: Vector {:trigger predictState(y)} | |y| == StateDim :: |predictState(y)| == StateDim
      ensures Valid()
      ensures this.sensorState == sensorState && this.sigmaR == sigmaR
      ensures this.sigmaTheta == sigmaTheta && this.Ts == Ts
      ensures this.generateSystemMatrix == generateSystemMatrix && this.predictState == predictState
      ensures this.H == H && this.Q == Q && this.lib == lib
      ensures validityConstant == sigmaTheta * sigmaTheta / sigmaR
      ensures initialR == R && this.R == R
      ensures t == 0
    {
      this.sensorState := sensorState;
      this.sigmaR := sigmaR;
      this.sigmaTheta := sigmaTheta;
      this.Ts := Ts;
      this.generateSystemMatrix := generateSystemMatrix;
      this.R := R;
      this.H := H;
      this.Q := Q;
      this.predictState := predictState;
      this.lib := lib;
      validityConstant := sigmaTheta * sigmaTheta / sigmaR;
      initialR := R;
      x := ZeroVector(5);
      P := ZeroMatrix(5, 5);
      F := ZeroMatrix(5, 5);
      S := ZeroMatrix(2, 2);
      W := ZeroMatrix(5, 2);
      z := ZeroVector(2);
      v := ZeroVector(2);
      zReal := ZeroVector(2);
      t := 0;
    }

    /** This filter holds the same configuration and the same state as `other`. */
    ghost predicate SameAs(other: KalmanFilter)
      reads this, other
    {
      sensorState == other.sensorState && sigmaR == other.sigmaR &&
      sigmaTheta == other.sigmaTheta && Ts == other.Ts &&
      generateSystemMatrix == other.generateSystemMatrix && predictState == other.predictState &&
      H == other.H && Q == other.Q && lib == other.lib &&
      validityConstant == other.validityConstant && initialR == other.initialR &&
      R == other.R && x == other.x && P == other.P && F == other.F &&
      S == other.S && W == other.W && z == other.z && v == other.v &&
      zReal == other.zReal && t == other.t
    }

    /** The member-wise copy C++ makes when a filter is passed or iterated by value. */
    constructor Copy(other: KalmanFilter)
      requires other.Valid()
      ensures Valid() && SameAs(other)
    {
      sensorState, sigmaR, sigmaTheta, Ts := other.sensorState, other.sigmaR, other.sigmaTheta, other.Ts;
      generateSystemMatrix, predictState := other.generateSystemMatrix, other.predictState;
      H, Q, lib := other.H, other.Q, other.lib;
      validityConstant, initialR := other.validityConstant, other.initialR;
      R, x, P, F := other.R, other.x, other.P, other.F;
      S, W, z, v := other.S, other.W, other.z, other.v;
      zReal, t := other.zReal, other.t;
      new;
      forall y: Vector | |y| == StateDim
        ensures IsMatrix(SystemMatrix(y), 5, 5) && |Predict(y)| == StateDim
      {
        assert SystemMatrix(y) == other.SystemMatrix(y) && Predict(y) == other.Predict(y);
      }
    }

    // -------------------------------------------------------------------------
    // Polar to Cartesian conversion

    /** The conversion debiases exactly when range × validity constant exceeds 0.4. */
    predicate Debiases(range: real)
    {
      range * validityConstant > DebiasThreshold
    }

    /** b1 = exp(−σθ²/2), the mean of cos of the bearing noise. */
    function DebiasFactor(): (b1: real)
      requires Configured()
      ensures b1 > 0.0
    {
      Exp(lib, -(sigmaTheta * sigmaTheta) / 2.0)
    }

    /** The Cartesian position of a (range, bearing) reading, offset by the
        sensor's position. */
    function CartesianOf(zPolar: Vector): (zc: Vector)
      requires Configured() && |zPolar| == MeasurementDim
      ensures |zc| == MeasurementDim
    {
      var range, theta := zPolar[0], zPolar[1];
      if Debiases(range) then
        var b1 := DebiasFactor();
        [range * Cos(lib, theta) / b1 + sensorState[0], range * Sin(lib, theta) / b1 + sensorState[2]]
      else
        [range * Cos(lib, theta) + sensorState[0], range * Sin(lib, theta) + sensorState[2]]
    }

    /** The measurement covariance that converting `zPolar` leaves in R. */
    function ConvertedCovariance(zPolar: Vector): (r: Matrix)
      requires Configured() && |zPolar| == MeasurementDim
      ensures IsMatrix(r, 2, 2) && IsSymmetric(r)
    {
      var range, theta := zPolar[0], zPolar[1];
      if Debiases(range) then
        DebiasedCovariance(range, Sin(lib, theta), Cos(lib, theta), Sin(lib, 2.0 * theta), Cos(lib, 2.0 * theta))
      else
        NearFieldCovariance(range, Sin(lib, theta), Cos(lib, theta), sigmaR, sigmaTheta)
    }

    /** R in the debiasing branch, from the range r, sin θ, cos θ, sin 2θ and cos 2θ. */
    function DebiasedCovariance(range: real, s: real, c: real, s2: real, c2: real): (r: Matrix)
      requires Configured()
      ensures IsMatrix(r, 2, 2) && IsSymmetric(r)
    {
      var sigRSquared := sigmaR * sigmaR;
      var b1 := DebiasFactor();
      var b2 := b1 * b1 * b1 * b1;
      var r01 := (range * range / (2.0 * b1 * b1) + (range * range + sigRSquared) * b2 / 2.0 - range * range) * s2;
      [[(1.0 / (b1 * b1) - 2.0) * range * range * c * c + (range * range + sigRSquared) * 0.5 * (1.0 + b2 * c2), r01],
       [r01, (1.0 / (b1 * b1) - 2.0) * range * range * s * s + (range * range + sigRSquared) * 0.5 * (1.0 - b2 * c2)]]
    }

    /** In the near field, R is the linearised propagation J·diag(σR², σθ²)·Jᵀ of
        the polar noise, J being the Jacobian of (r, θ) ↦ (r cos θ, r sin θ). */
    lemma NearFieldCovarianceIsLinearised(zPolar: Vector)
      requires Configured() && |zPolar| == MeasurementDim && !Debiases(zPolar[0])
      ensures var J := PolarJacobian(zPolar[0], Sin(lib, zPolar[1]), Cos(lib, zPolar[1]));
              ConvertedCovariance(zPolar) ==
              Mul(Mul(J, PolarNoise(sigmaR, sigmaTheta)), Transpose(J))
    {
      PolarPropagation(zPolar[0], Sin(lib, zPolar[1]), Cos(lib, zPolar[1]), sigmaR, sigmaTheta);
    }

    /** In the near field, R is positive semidefinite: nonnegative diagonal and
        determinant (σR·σθ·r)²; the latter needs sin² + cos² = 1. */
    lemma NearFieldCovariancePositiveSemidefinite(zPolar: Vector)
      requires Configured() && |zPolar| == MeasurementDim && !Debiases(zPolar[0])
      ensures var r := ConvertedCovariance(zPolar);
              r[0][0] >= 0.0 && r[1][1] >= 0.0 &&
              r[0][0] * r[1][1] - r[0][1] * r[1][0] ==
                (sigmaR * sigmaTheta * zPolar[0]) * (sigmaR * sigmaTheta * zPolar[0])
    {
      NearFieldDeterminant(zPolar[0], Sin(lib, zPolar[1]), Cos(lib, zPolar[1]), sigmaR, sigmaTheta);
    }

    /** The converted position lies at the measured range from the sensor,
        stretched by 1/b1 in the debiasing branch. */
    lemma ConvertedRangeRecovered(zPolar: Vector)
      requires Configured() && |zPolar| == MeasurementDim
      ensures var zc := CartesianOf(zPolar);
              var dx, dy := zc[0] - sensorState[0], zc[1] - sensorState[2];
              var k := if Debiases(zPolar[0]) then DebiasFactor() else 1.0;
              dx * dx + dy * dy == (zPolar[0] / k) * (zPolar[0] / k)
    {
      var range, theta := zPolar[0], zPolar[1];
      var s, c := Sin(lib, theta), Cos(lib, theta);
      assert s * s + c * c == 1.0;
      var k := if Debiases(range) then DebiasFactor() else 1.0;
      var zc := CartesianOf(zPolar);
      assert zc[0] - sensorState[0] == (range / k) * c;
      assert zc[1] - sensorState[2] == (range / k) * s;
      assert (range / k) * c * ((range / k) * c) + (range / k) * s * ((range / k) * s)
          == (range / k) * (range / k) * (s * s + c * c);
    }

    /** Converts a (range, bearing) reading to Cartesian coordinates and rewrites
        R with the covariance of the converted reading. */
    method ConvertToCartesian(zPolar: Vector) returns (zc: Vector)
      requires Valid() && |zPolar| == MeasurementDim
      modifies this`R
      ensures Valid()
      ensures zc == CartesianOf(zPolar) && R == ConvertedCovariance(zPolar)
      ensures IsSymmetric(R)
    {
      zc := CartesianOf(zPolar);
      R := ConvertedCovariance(zPolar);
    }

    // -------------------------------------------------------------------------
    // Initialisation and the update cycle

    /** Seeds the state from two consecutive readings: position from the second,
        velocity by finite difference, turn rate zero. The covariance is built
        from the R left by converting the second reading. */
    method Initialize(z0: Vector, z1: Vector)
      requires Valid() && |z0| == MeasurementDim && |z1| == MeasurementDim
      requires Ts != 0.0
      modifies this`R, this`x, this`P
      ensures Valid()
      ensures var c0, c1 := CartesianOf(z0), CartesianOf(z1);
              x == [c1[0], (c1[0] - c0[0]) / Ts, c1[1], (c1[1] - c0[1]) / Ts, 0.0]
      ensures R == ConvertedCovariance(z1)
      ensures P == InitialCovariance(R[0][0], R[1][1], Ts) && IsSymmetric(P)
    {
      // The proof needs only the callees' contracts, not these definitions.
      hide CartesianOf, ConvertedCovariance, InitialCovariance;
      var c0 := ConvertToCartesian(z0);
      var c1 := ConvertToCartesian(z1);
      var xDot := (c1[0] - c0[0]) / Ts;
      var yDot := (c1[1] - c0[1]) / Ts;
      x := [c1[0], xDot, c1[1], yDot, 0.0];
      var Rx, Ry := R[0][0], R[1][1];
      P := InitialCovariance(Rx, Ry, Ts);
      InitialCovarianceIsFiniteDifference(Rx, Ry, Ts);
    }

    /** P ← F·P·Fᵀ + Q, S = R + H·P·Hᵀ, W = P·Hᵀ·S⁻¹, P ← P − W·S·Wᵀ. */
    method UpdateCovarianceAndGain()
      requires Valid()
      modifies this`P, this`S, this`W
      ensures Valid()
      ensures var Pp := PredictedCovariance(F, old(P), Q);
              S == InnovationCovariance(R, H, Pp) && W == Gain(Pp, H, S, lib) &&
              P == CorrectedCovariance(Pp, W, S)
    {
      P := PredictedCovariance(F, P, Q);
      S := InnovationCovariance(R, H, P);
      W := Gain(P, H, S, lib);
      P := CorrectedCovariance(P, W, S);
    }

    /** Predicts the state, forms the residual against `zc` and corrects. */
    method UpdateStateEstimate(zc: Vector)
      requires Valid() && |zc| == MeasurementDim
      modifies this`x, this`z, this`v
      ensures Valid()
      ensures z == MatVec(H, Predict(old(x))) && v == VecSub(zc, z)
      ensures x == CorrectedState(Predict(old(x)), W, H, zc)
    {
      x := Predict(x);
      z := MatVec(H, x);
      v := VecSub(zc, z);
      x := VecAdd(x, MatVec(W, v));
    }

    /** The whole state one cycle on `measurement` leaves behind, when the
        filter held the estimate `prior` and had counted `t0` cycles: what
        `Update` ensures, as one predicate over the new state. */
    ghost predicate UpdatedFrom(prior: Estimate, t0: int, measurement: Vector)
      reads this
      requires Valid() && IsEstimate(prior) && |measurement| == MeasurementDim
    {
      zReal == CartesianOf(measurement) && R == ConvertedCovariance(measurement) &&
      F == SystemMatrix(prior.x) &&
      (var Pp := PredictedCovariance(F, prior.P, Q);
       S == InnovationCovariance(R, H, Pp) && W == Gain(Pp, H, S, lib) &&
       P == CorrectedCovariance(Pp, W, S)) &&
      z == MatVec(H, Predict(prior.x)) && v == VecSub(zReal, z) &&
      x == CorrectedState(Predict(prior.x), W, H, zReal) && t == t0 + 1
    }

    /** One filter cycle on a (range, bearing) reading. It returns the new
        estimate and counts the cycle. */
    method Update(measurement: Vector) returns (estimates: Estimate)
      requires Valid() && |measurement| == MeasurementDim
      modifies this
      ensures Valid()
      ensures zReal == CartesianOf(measurement) && R == ConvertedCovariance(measurement)
      ensures F == SystemMatrix(old(x))
      ensures var Pp := PredictedCovariance(F, old(P), Q);
              S == InnovationCovariance(R, H, Pp) && W == Gain(Pp, H, S, lib) &&
              P == CorrectedCovariance(Pp, W, S)
      ensures z == MatVec(H, Predict(old(x))) && v == VecSub(zReal, z)
      ensures x == CorrectedState(Predict(old(x)), W, H, zReal)
      ensures t == old(t) + 1
      ensures estimates == GetEstimate()
    {
      // The proof needs only the callees' contracts, not these definitions.
      hide PredictedCovariance, InnovationCovariance, Gain, CorrectedCovariance, CorrectedState,
        ConvertedCovariance, CartesianOf, MatVec, VecSub;
      var zc := ConvertToCartesian(measurement);
      zReal := zc;
      F := SystemMatrix(x);
      UpdateCovarianceAndGain();
      UpdateStateEstimate(zc);
      estimates := Estimate(x, P);
      label counted:
      t := t + 1;
      assert unchanged@counted(this`R, this`x, this`P, this`F, this`S, this`W, this`z, this`v, this`zReal);
    }

    /** The current (state, covariance) pair; a valid filter hands out a
        5-vector and a 5 × 5 matrix. */
    function GetEstimate(): (e: Estimate)
      reads this
      ensures Valid() ==> IsEstimate(e)
    {
      Estimate(x, P)
    }

    /** Overwrites the estimate, as the IMM does with a mixed one. */
    method Reinitialize(params: Estimate)
      requires Valid() && IsEstimate(params)
      modifies this`x, this`P
      ensures Valid()
      ensures GetEstimate() == params
    {
      x := params.x;
      P := params.P;
    }

    /** exp(−½·vᵀS⁻¹v): the Gaussian kernel of the last residual. The 2π·S
        normaliser is computed by the program and then discarded. */
    function GetLikelihood(): (lambda: real)
      reads this
      requires Valid()
      ensures lambda > 0.0
    {
      var exponent := Dot(VecMat(v, Inverse(lib, S), 2), v);
      Exp(lib, -0.5 * exponent)
    }

    /** The Cartesian measurement the last update converted; a 2-vector. */
    function GetRealZ(): (zc: Vector)
      reads this
      ensures Valid() ==> |zc| == MeasurementDim
    {
      zReal
    }
  }
}
