/** The performance evaluator of the tracker (src/PerformanceEvaluator.cpp): a
    table of named sample series, one per metric. Each cycle appends one sample
    per metric; at the end of a run every series is reduced (average, root-mean or
    root-mean-square over the sample count) into a result, and the series are
    cleared for the next run. sqrt, atan2 and the matrix inverse come from a
    `Library`. */
module Evaluation {
  import opened LinAlg
  import opened Transcendental
  import opened Kalman

  // ---------------------------------------------------------------------------
  // The key table

  /** The eight registered metrics; the table's keys are their names. */
  datatype Key = NORXE | FPOS | FVEL | RMSPOS | RMSVEL | RMSSPD | RMSCRS | NEES

  /** The keys in the order the table is iterated (by name). */
  const Keys: seq<Key> := [FPOS, FVEL, NEES, NORXE, RMSCRS, RMSPOS, RMSSPD, RMSVEL]

  /** The position of a key in the iteration order. */
  function Index(k: Key): (i: nat)
    ensures i < |Keys| && Keys[i] == k
  {
    match k
    case FPOS => 0
    case FVEL => 1
    case NEES => 2
    case NORXE => 3
    case RMSCRS => 4
    case RMSPOS => 5
    case RMSSPD => 6
    case RMSVEL => 7
  }

  /** Every key is visited exactly once by an iteration over `Keys`. */
  lemma KeysIndexed()
    ensures forall l | 0 <= l < |Keys| :: Index(Keys[l]) == l
  {
  }

  /** How a series is reduced at the end of a run. */
  datatype Reducer = Average | RootMean | RootMeanSquare

  /** The reducer each key is registered with. */
  function ReducerOf(key: Key): (r: Reducer)
    ensures r == RootMean <==> key == FPOS || key == FVEL
    ensures r == Average <==> key == NORXE || key == NEES
  {
    match key
    case NORXE | NEES => Average
    case FPOS | FVEL => RootMean
    case _ => RootMeanSquare
  }

  // ---------------------------------------------------------------------------
  // Per-sample metrics

  function Abs(a: real): (r: real)
    ensures r >= 0.0 && (r == a || r == -a)
  {
    if a < 0.0 then -a else a
  }

  function Square(a: real): (r: real)
    ensures r >= 0.0
  {
    a * a
  }

  /** Normalised x-error: (x_real − x_est) / sqrt(P₀₀). */
  function NormalizedError(lib: Library, xEst: Vector, P: Matrix, xReal: Vector): (r: real)
    requires |xEst| == StateDim && |xReal| == StateDim && IsMatrix(P, StateDim, StateDim)
    requires Sqrt(lib, P[0][0]) != 0.0
  {
    (xReal[0] - xEst[0]) / Sqrt(lib, P[0][0])
  }

  /** The filter's own position variance, P₀₀ + P₂₂. */
  function PositionVariance(P: Matrix): (r: real)
    requires IsMatrix(P, StateDim, StateDim)
    ensures P[0][0] >= 0.0 && P[2][2] >= 0.0 ==> r >= 0.0
    ensures r - P[2][2] == P[0][0]
  {
    P[0][0] + P[2][2]
  }

  /** The filter's own velocity variance, P₁₁ + P₃₃. */
  function VelocityVariance(P: Matrix): (r: real)
    requires IsMatrix(P, StateDim, StateDim)
    ensures P[1][1] >= 0.0 && P[3][3] >= 0.0 ==> r >= 0.0
    ensures r - P[3][3] == P[1][1]
  {
    P[1][1] + P[3][3]
  }

  /** Euclidean length of the (i, j) components of a state. */
  function Norm2(lib: Library, x: Vector, i: nat, j: nat): real
    requires i < |x| && j < |x|
  {
    Sqrt(lib, Square(x[i]) + Square(x[j]))
  }

  /** Position error: the length of the (x, y) difference. */
  function PositionError(lib: Library, xEst: Vector, xReal: Vector): (r: real)
    requires |xEst| == StateDim && |xReal| == StateDim
  {
    Sqrt(lib, Square(xEst[0] - xReal[0]) + Square(xEst[2] - xReal[2]))
  }

  /** Velocity error: the length of the (ẋ, ẏ) difference. */
  function VelocityError(lib: Library, xEst: Vector, xReal: Vector): (r: real)
    requires |xEst| == StateDim && |xReal| == StateDim
  {
    Sqrt(lib, Square(xEst[1] - xReal[1]) + Square(xEst[3] - xReal[3]))
  }

  /** Speed error: true speed minus estimated speed. */
  function SpeedError(lib: Library, xEst: Vector, xReal: Vector): (r: real)
    requires |xEst| == StateDim && |xReal| == StateDim
  {
    Sqrt(lib, Square(xReal[1]) + Square(xReal[3])) - Sqrt(lib, Square(xEst[1]) + Square(xEst[3]))
  }

  /** Course error: |true heading| minus |estimated heading|. */
  function CourseError(lib: Library, xEst: Vector, xReal: Vector): (r: real)
    requires |xEst| == StateDim && |xReal| == StateDim
  {
    Abs(Atan2(lib, xReal[3], xReal[1])) - Abs(Atan2(lib, xEst[3], xEst[1]))
  }

  // What the metrics mean, given the laws of the square root.

  /** With a positive variance P₀₀, the square of the normalised x-error is the
      squared x-error over that variance, and the normalised error has the sign
      of the x-error. */
  lemma NormalizedErrorScaled(lib: Library, xEst: Vector, P: Matrix, xReal: Vector)
    requires |xEst| == StateDim && |xReal| == StateDim && IsMatrix(P, StateDim, StateDim)
    requires Lawful(lib) && P[0][0] > 0.0
    ensures Sqrt(lib, P[0][0]) > 0.0
    ensures var r := NormalizedError(lib, xEst, P, xReal);
            r * r * P[0][0] == Square(xReal[0] - xEst[0]) &&
            (r > 0.0 <==> xReal[0] > xEst[0]) && (r == 0.0 <==> xReal[0] == xEst[0])
  {
    var s := Sqrt(lib, P[0][0]);
    assert s >= 0.0 && s * s == P[0][0];
    assert s > 0.0;
    var d := xReal[0] - xEst[0];
    var r := NormalizedError(lib, xEst, P, xReal);
    assert r * s == d;
    assert r * r * P[0][0] == (r * s) * (r * s);
    if r > 0.0 {
      assert r * s > 0.0;
    } else if r < 0.0 {
      assert r * s < 0.0;
    }
  }

  /** The length of an (i, j) pair is nonnegative, squares to the sum of the
      squares, and is zero at the origin. */
  lemma Norm2IsLength(lib: Library, x: Vector, i: nat, j: nat)
    requires i < |x| && j < |x| && Lawful(lib)
    ensures var n := Norm2(lib, x, i, j);
            n >= 0.0 && n * n == Square(x[i]) + Square(x[j]) &&
            (x[i] == 0.0 && x[j] == 0.0 ==> n == 0.0)
  {
    SqrtLaw(lib, Square(x[i]) + Square(x[j]));
  }

  /** The position error is a distance between the two (x, y) positions: it is
      nonnegative, symmetric, squares to the squared distance, and is zero
      when the positions agree. */
  lemma PositionErrorIsDistance(lib: Library, xEst: Vector, xReal: Vector)
    requires |xEst| == StateDim && |xReal| == StateDim && Lawful(lib)
    ensures var r := PositionError(lib, xEst, xReal);
            r >= 0.0 && r == PositionError(lib, xReal, xEst) &&
            r * r == Square(xEst[0] - xReal[0]) + Square(xEst[2] - xReal[2]) &&
            (xEst[0] == xReal[0] && xEst[2] == xReal[2] ==> r == 0.0)
  {
    var e := VecSub(xEst, xReal);
    Norm2IsLength(lib, e, 0, 2);
    assert Square(xEst[0] - xReal[0]) == Square(xReal[0] - xEst[0]);
    assert Square(xEst[2] - xReal[2]) == Square(xReal[2] - xEst[2]);
  }

  /** The velocity error is the same distance between the (ẋ, ẏ) velocities. */
  lemma VelocityErrorIsDistance(lib: Library, xEst: Vector, xReal: Vector)
    requires |xEst| == StateDim && |xReal| == StateDim && Lawful(lib)
    ensures var r := VelocityError(lib, xEst, xReal);
            r >= 0.0 && r == VelocityError(lib, xReal, xEst) &&
            r * r == Square(xEst[1] - xReal[1]) + Square(xEst[3] - xReal[3]) &&
            (xEst[1] == xReal[1] && xEst[3] == xReal[3] ==> r == 0.0)
  {
    var e := VecSub(xEst, xReal);
    Norm2IsLength(lib, e, 1, 3);
    assert Square(xEst[1] - xReal[1]) == Square(xReal[1] - xEst[1]);
    assert Square(xEst[3] - xReal[3]) == Square(xReal[3] - xEst[3]);
  }

  /** The speed error changes sign when estimate and truth swap, vanishes when
      the velocities agree, and never exceeds the velocity error in size (the
      reverse triangle inequality). */
  lemma SpeedErrorBounded(lib: Library, xEst: Vector, xReal: Vector)
    requires |xEst| == StateDim && |xReal| == StateDim && Lawful(lib)
    ensures SpeedError(lib, xEst, xReal) == -SpeedError(lib, xReal, xEst)
    ensures xEst[1] == xReal[1] && xEst[3] == xReal[3] ==> SpeedError(lib, xEst, xReal) == 0.0
    ensures Abs(SpeedError(lib, xEst, xReal)) <= VelocityError(lib, xEst, xReal)
  {
    hide Lawful;
    assert SpeedError(lib, xEst, xReal) == Norm2(lib, xReal, 1, 3) - Norm2(lib, xEst, 1, 3);
    assert SpeedError(lib, xReal, xEst) == Norm2(lib, xEst, 1, 3) - Norm2(lib, xReal, 1, 3);
    hide SpeedError;
    Norm2IsLength(lib, xReal, 1, 3);
    Norm2IsLength(lib, xEst, 1, 3);
    VelocityErrorIsDistance(lib, xEst, xReal);
    ReverseTriangle(xReal[1], xReal[3], xEst[1], xEst[3],
      Norm2(lib, xReal, 1, 3), Norm2(lib, xEst, 1, 3), VelocityError(lib, xEst, xReal));
  }

  /** ‖a‖ − ‖b‖ is at most ‖b − a‖ in size, for plane vectors a and b whose
      lengths are given as nonnegative roots. */
  lemma ReverseTriangle(a1: real, a3: real, b1: real, b3: real, u: real, w: real, d: real)
    requires u >= 0.0 && u * u == Square(a1) + Square(a3)
    requires w >= 0.0 && w * w == Square(b1) + Square(b3)
    requires d >= 0.0 && d * d == Square(b1 - a1) + Square(b3 - a3)
    ensures Abs(u - w) <= d
  {
    hide Square;
    CauchySchwarz2(a1, a3, b1, b3);
    DistanceExpansion(a1, a3, b1, b3);
    RootsAndDot(u, w, d, Square(a1) + Square(a3), Square(b1) + Square(b3), a1 * b1 + a3 * b3);
  }

  /** The same, for lengths u, w and distance d given through the squared
      lengths A, B and the dot product: u·w bounds the dot product, so
      (u − w)² is at most d². */
  lemma RootsAndDot(u: real, w: real, d: real, A: real, B: real, dot: real)
    requires u >= 0.0 && u * u == A && w >= 0.0 && w * w == B && A * B >= Square(dot)
    requires d >= 0.0 && d * d == A + B - 2.0 * dot
    ensures Abs(u - w) <= d
  {
    hide Square;
    ProductOfSquares(u, w, A, B);
    AbsSquare(dot);
    ProductNonnegative(u, w);
    RootsOrdered(u * w, Abs(dot));
    DifferenceSquare(u, w);
    RootsOrdered(d, Abs(u - w));
  }

  /** (a₁² + a₃²)·(b₁² + b₃²) ≥ (a₁b₁ + a₃b₃)², by Lagrange's identity. */
  lemma CauchySchwarz2(a1: real, a3: real, b1: real, b3: real)
    ensures (Square(a1) + Square(a3)) * (Square(b1) + Square(b3)) >= Square(a1 * b1 + a3 * b3)
  {
    assert (Square(a1) + Square(a3)) * (Square(b1) + Square(b3)) - Square(a1 * b1 + a3 * b3)
        == Square(a1 * b3 - a3 * b1);
  }

  lemma DistanceExpansion(a1: real, a3: real, b1: real, b3: real)
    ensures Square(b1 - a1) + Square(b3 - a3) ==
            (Square(a1) + Square(a3)) + (Square(b1) + Square(b3)) - 2.0 * (a1 * b1 + a3 * b3)
  {
  }

  lemma DifferenceSquare(u: real, w: real)
    ensures Abs(u - w) * Abs(u - w) == u * u + w * w - 2.0 * (u * w)
  {
  }

  lemma ProductOfSquares(u: real, w: real, A: real, B: real)
    requires u * u == A && w * w == B
    ensures (u * w) * (u * w) == A * B
  {
  }

  lemma ProductNonnegative(u: real, w: real)
    requires u >= 0.0 && w >= 0.0
    ensures u * w >= 0.0
  {
  }

  lemma AbsSquare(t: real)
    ensures Abs(t) * Abs(t) == Square(t)
  {
  }

  /** Squaring is monotone on the nonnegative reals, and so is its inverse. */
  lemma RootsOrdered(a: real, b: real)
    requires a >= 0.0 && b >= 0.0 && a * a >= b * b
    ensures a >= b
  {
    if a + b > 0.0 {
      FactorSign(a - b, a + b, a * a - b * b);
    }
  }

  lemma FactorSign(x: real, s: real, prod: real)
    requires s > 0.0 && prod == x * s && prod >= 0.0
    ensures x >= 0.0
  {
  }

  /** The course error changes sign when estimate and truth swap, and vanishes
      when the velocities agree. */
  lemma CourseErrorAntisymmetric(lib: Library, xEst: Vector, xReal: Vector)
    requires |xEst| == StateDim && |xReal| == StateDim
    ensures CourseError(lib, xEst, xReal) == -CourseError(lib, xReal, xEst)
    ensures xEst[1] == xReal[1] && xEst[3] == xReal[3] ==> CourseError(lib, xEst, xReal) == 0.0
  {
  }

  /** Normalised estimation error squared: eᵀ·P⁻¹·e with e = x_real − x_est. */
  function NormalizedErrorSquared(lib: Library, xEst: Vector, P: Matrix, xReal: Vector): (r: real)
    requires |xEst| == StateDim && |xReal| == StateDim && IsMatrix(P, StateDim, StateDim)
    requires Lawful(lib)
    ensures var e := VecSub(xReal, xEst); r == Dot(e, MatVec(Inverse(lib, P), e))
  {
    var e := VecSub(xReal, xEst);
    var r := Dot(VecMat(e, Inverse(lib, P), StateDim), e);
    VecMatAdjoint(e, Inverse(lib, P), StateDim, e);
    r
  }

  /** What the metric registered under `key` makes of one (estimate, truth) pair. */
  function Measure(lib: Library, key: Key, xEst: Vector, P: Matrix, xReal: Vector): (r: real)
    requires |xEst| == StateDim && |xReal| == StateDim && IsMatrix(P, StateDim, StateDim)
    requires Lawful(lib) && Sqrt(lib, P[0][0]) != 0.0
    ensures key == FPOS && P[0][0] >= 0.0 && P[2][2] >= 0.0 ==> r >= 0.0
    ensures key == FVEL && P[1][1] >= 0.0 && P[3][3] >= 0.0 ==> r >= 0.0
  {
    match key
    case NORXE => NormalizedError(lib, xEst, P, xReal)
    case FPOS => PositionVariance(P)
    case FVEL => VelocityVariance(P)
    case RMSPOS => PositionError(lib, xEst, xReal)
    case RMSVEL => VelocityError(lib, xEst, xReal)
    case RMSSPD => SpeedError(lib, xEst, xReal)
    case RMSCRS => CourseError(lib, xEst, xReal)
    case NEES => NormalizedErrorSquared(lib, xEst, P, xReal)
  }

  // ---------------------------------------------------------------------------
  // Reducers over a series and the sample count

  /** Sum of squares, accumulated left to right. */
  function SumOfSquares(v: Vector): (r: real)
    ensures r >= 0.0
    ensures (forall i | 0 <= i < |v| :: v[i] == 0.0) ==> r == 0.0
  {
    if |v| == 0 then 0.0 else SumOfSquares(v[..|v| - 1]) + Square(v[|v| - 1])
  }

  /** The mean of a series over `count` samples. */
  function Mean(v: Vector, count: int): (r: real)
    requires count >= 1
    ensures r * (count as real) == Sum(v)
  {
    Sum(v) / (count as real)
  }

  /** The mean square of a series over `count` samples: the argument of the
      square root in the root-mean-square reducer. */
  function MeanSquare(v: Vector, count: int): (r: real)
    requires count >= 1
    ensures r >= 0.0
    ensures r * (count as real) == SumOfSquares(v)
  {
    SumOfSquares(v) / (count as real)
  }

  /** The result a key's reducer makes of a series over `count` samples. */
  function Reduce(lib: Library, key: Key, v: Vector, count: int): (r: real)
    requires count >= 1
    ensures ReducerOf(key) == Average ==> r * (count as real) == Sum(v)
    ensures ReducerOf(key) == RootMean ==> r == Sqrt(lib, Mean(v, count))
    ensures ReducerOf(key) == RootMeanSquare ==> r == Sqrt(lib, MeanSquare(v, count))
  {
    match ReducerOf(key)
    case Average => Mean(v, count)
    case RootMean => Sqrt(lib, Mean(v, count))
    case RootMeanSquare => Sqrt(lib, MeanSquare(v, count))
  }

  /** A reduction sees a series only through its sum and its sum of squares. */
  lemma ReduceBySums(lib: Library, key: Key, u: Vector, v: Vector, count: int)
    requires count >= 1
    requires Sum(u) == Sum(v) && SumOfSquares(u) == SumOfSquares(v)
    ensures Reduce(lib, key, u, count) == Reduce(lib, key, v, count)
  {
  }

  /** Appending one sample adds it to the sum and its square to the sum of squares. */
  lemma SumsOfAppend(v: Vector, a: real)
    ensures Sum(v + [a]) == Sum(v) + a
    ensures SumOfSquares(v + [a]) == SumOfSquares(v) + Square(a)
  {
    assert (v + [a])[..|v|] == v;
  }

  /** Appending the same sample to two series with equal sums keeps them equal. */
  lemma AppendKeepsSums(u: Vector, v: Vector, a: real)
    requires Sum(u) == Sum(v) && SumOfSquares(u) == SumOfSquares(v)
    ensures Sum(u + [a]) == Sum(v + [a]) && SumOfSquares(u + [a]) == SumOfSquares(v + [a])
  {
    SumsOfAppend(u, a);
    SumsOfAppend(v, a);
  }

  /** A series of zeros sums to zero. */
  lemma {:induction false} SumOfZeros(v: Vector)
    requires forall i | 0 <= i < |v| :: v[i] == 0.0
    ensures Sum(v) == 0.0
  {
    if |v| > 0 {
      SumOfZeros(v[..|v| - 1]);
    }
  }

  /** Zero padding left in a series by an earlier run changes neither sum. */
  lemma {:induction false} ZeroPaddingInvisible(z: Vector, v: Vector)
    requires forall i | 0 <= i < |z| :: z[i] == 0.0
    ensures Sum(z + v) == Sum(v) && SumOfSquares(z + v) == SumOfSquares(v)
  {
    if |v| == 0 {
      assert z + v == z;
      SumOfZeros(z);
    } else {
      var w := v[..|v| - 1];
      ZeroPaddingInvisible(z, w);
      assert z + v == (z + w) + [v[|v| - 1]];
      assert v == w + [v[|v| - 1]];
      SumsOfAppend(z + w, v[|v| - 1]);
      SumsOfAppend(w, v[|v| - 1]);
    }
  }

  // ---------------------------------------------------------------------------
  // The table as a value

  type Table = map<Key, seq<real>>

  /** An empty series for every key. */
  const EmptyTable: Table := map k: Key | k in Keys :: []

  /** One sample per key: what the registered metrics make of one cycle. */
  function AppendRow(t: Table, lib: Library, xEst: Vector, P: Matrix, xReal: Vector): (r: Table)
    requires |xEst| == StateDim && |xReal| == StateDim && IsMatrix(P, StateDim, StateDim)
    requires Lawful(lib) && Sqrt(lib, P[0][0]) != 0.0
    ensures r.Keys == t.Keys
    ensures forall k | k in t :: r[k] == t[k] + [Measure(lib, k, xEst, P, xReal)]
  {
    map k | k in t :: t[k] + [Measure(lib, k, xEst, P, xReal)]
  }

  /** Every series reduced by its key's reducer. */
  function Reduced(lib: Library, t: Table, count: int): (r: map<Key, real>)
    requires count >= 1
    ensures r.Keys == t.Keys
    ensures forall k | k in t :: r[k] == Reduce(lib, k, t[k], count)
  {
    map k | k in t :: Reduce(lib, k, t[k], count)
  }

  /** A table for every key, and a record of the samples appended since the
      last finish: `count` of them per key, with the same sum and the same sum
      of squares as the key's series. */
  ghost predicate Tracks(series: Table, samples: Table, count: int)
  {
    count >= 0 &&
    forall k: Key ::
      k in series && k in samples && |samples[k]| == count &&
      Sum(series[k]) == Sum(samples[k]) && SumOfSquares(series[k]) == SumOfSquares(samples[k])
  }

  /** Appending a cycle to both the series and the record keeps the record. */
  lemma TracksAppend(series: Table, samples: Table, count: int,
                     lib: Library, xEst: Vector, P: Matrix, xReal: Vector)
    requires Tracks(series, samples, count)
    requires |xEst| == StateDim && |xReal| == StateDim && IsMatrix(P, StateDim, StateDim)
    requires Lawful(lib) && Sqrt(lib, P[0][0]) != 0.0
    ensures forall k: Key :: k in series && k in samples
    ensures Tracks(AppendRow(series, lib, xEst, P, xReal), AppendRow(samples, lib, xEst, P, xReal), count + 1)
  {
    forall k: Key
      ensures var a := Measure(lib, k, xEst, P, xReal);
        Sum(series[k] + [a]) == Sum(samples[k] + [a]) &&
        SumOfSquares(series[k] + [a]) == SumOfSquares(samples[k] + [a])
    {
      AppendKeepsSums(series[k], samples[k], Measure(lib, k, xEst, P, xReal));
    }
  }

  /** The reducers make the same of each series as of its record. */
  lemma TracksReduce(series: Table, samples: Table, count: int, lib: Library)
    requires Tracks(series, samples, count) && count >= 1
    ensures forall k: Key :: k in series && k in samples
    ensures Reduced(lib, series, count) == Reduced(lib, samples, count)
  {
    forall k: Key
      ensures Reduce(lib, k, series[k], count) == Reduce(lib, k, samples[k], count)
    {
      ReduceBySums(lib, k, series[k], samples[k], count);
    }
  }

  /** Zeroed series with an empty record: the state after a finish. */
  lemma TracksCleared(series: Table)
    requires forall k: Key :: k in series && forall i | 0 <= i < |series[k]| :: series[k][i] == 0.0
    ensures Tracks(series, EmptyTable, 0)
  {
    forall k: Key
      ensures k in (EmptyTable) && Sum(series[k]) == 0.0
    {
      assert Keys[Index(k)] == k;
      SumOfZeros(series[k]);
    }
  }

  // ---------------------------------------------------------------------------
  // The evaluator

  class PerformanceEvaluator {
    const lib: Library
    var filename: string
    /** One sample series per key. */
    var series: map<Key, seq<real>>
    /** Cycles evaluated since the last finish. */
    var sampleCount: int
    var results: map<Key, real>
    /** The samples appended to each series since the last finish, without the
        zeros a finish leaves behind. */
    ghost var samples: map<Key, seq<real>>

    /** The table holds a series for every registered key. */
    ghost predicate Shaped()
      reads this
    {
      forall k: Key :: k in series
    }

    /** Every series has the sum and the sum of squares of the samples
        appended to it since the last finish, and there are `sampleCount` of
        those. */
    ghost predicate Valid()
      reads this
    {
      Tracks(series, samples, sampleCount)
    }

    /** Registers the eight keys, each with an empty series. */
    constructor (lib: Library)
      ensures Valid() && this.lib == lib
      ensures forall k: Key :: k in series && series[k] == []
      ensures samples == EmptyTable
      ensures sampleCount == 0 && results == map[]
    {
      this.lib := lib;
      filename := "";
      series := EmptyTable;
      samples := EmptyTable;
      sampleCount := 0;
      results := map[];
      new;
      forall k: Key
        ensures k in series && k in samples
      {
        assert Keys[Index(k)] == k;
      }
    }

    /** Registers the keys and names the results file. */
    constructor WithFilename(lib: Library, filename: string)
      ensures Valid() && this.lib == lib && this.filename == filename
      ensures forall k: Key :: k in series && series[k] == []
      ensures samples == EmptyTable
      ensures sampleCount == 0 && results == map[]
    {
      this.lib := lib;
      this.filename := filename;
      series := EmptyTable;
      samples := EmptyTable;
      sampleCount := 0;
      results := map[];
      new;
      forall k: Key
        ensures k in series && k in samples
      {
        assert Keys[Index(k)] == k;
      }
    }

    method SetFilename(filename: string)
      modifies this`filename
      ensures this.filename == filename
    {
      this.filename := filename;
    }

    /** Appends one sample to every series and counts the cycle. */
    method EvaluateIntermediate(estimate: Estimate, xReal: Vector)
      requires Valid() && IsEstimate(estimate) && |xReal| == StateDim
      requires Lawful(lib) && Sqrt(lib, estimate.P[0][0]) != 0.0
      modifies this`series, this`sampleCount, this`samples
      ensures Valid()
      ensures series == AppendRow(old(series), lib, estimate.x, estimate.P, xReal)
      ensures samples == AppendRow(old(samples), lib, estimate.x, estimate.P, xReal)
      ensures sampleCount == old(sampleCount) + 1
    {
      hide Measure, Tracks, AppendRow, Lawful;
      TracksAppend(series, samples, sampleCount, lib, estimate.x, estimate.P, xReal);
      AppendSamples(estimate, xReal);
      sampleCount := sampleCount + 1;
      samples := AppendRow(samples, lib, estimate.x, estimate.P, xReal);
    }

    /** The loop of `EvaluateIntermediate`: one sample onto every series. */
    method AppendSamples(estimate: Estimate, xReal: Vector)
      requires Shaped() && IsEstimate(estimate) && |xReal| == StateDim
      requires Lawful(lib) && Sqrt(lib, estimate.P[0][0]) != 0.0
      modifies this`series
      ensures series == AppendRow(old(series), lib, estimate.x, estimate.P, xReal)
    {
      hide Measure, AppendRow, Lawful;
      ghost var row := AppendRow(series, lib, estimate.x, estimate.P, xReal);
      KeysIndexed();
      for i := 0 to |Keys|
        invariant Shaped()
        invariant forall k: Key :: Index(k) < i ==> series[k] == row[k]
        invariant forall k: Key :: Index(k) >= i ==> series[k] == old(series[k])
      {
        var k := Keys[i];
        series := series[k := series[k] + [Measure(lib, k, estimate.x, estimate.P, xReal)]];
      }
      assert forall k: Key :: k in series && k in row && series[k] == row[k];
    }

    /** Sets every stored sample to zero, keeping each series' length. */
    method ClearVectors()
      requires Shaped()
      modifies this`series
      ensures Shaped()
      ensures forall k: Key ::
        |series[k]| == |old(series[k])| && forall i | 0 <= i < |series[k]| :: series[k][i] == 0.0
    {
      KeysIndexed();
      for i := 0 to |Keys|
        invariant Shaped()
        invariant forall k: Key :: Index(k) < i ==>
          |series[k]| == |old(series[k])| && forall j | 0 <= j < |series[k]| :: series[k][j] == 0.0
        invariant forall k: Key :: Index(k) >= i ==> series[k] == old(series[k])
      {
        ZeroSeries(Keys[i]);
      }
    }

    /** The inner loop of `ClearVectors`: zeroes the series of one key. */
    method ZeroSeries(k: Key)
      requires k in series
      modifies this`series
      ensures series == old(series)[k := seq(|old(series[k])|, _ => 0.0)]
    {
      var j := 0;
      while j < |series[k]|
        invariant k in series && |series[k]| == |old(series[k])|
        invariant series == old(series)[k := series[k]]
        invariant 0 <= j <= |series[k]|
        invariant forall m | 0 <= m < j :: series[k][m] == 0.0
      {
        series := series[k := series[k][j := 0.0]];
        j := j + 1;
      }
      assert series[k] == seq(|old(series[k])|, _ => 0.0);
    }

    /** Reduces every series into its result, then clears the series and the count. */
    method FinishEvaluating()
      requires Valid() && sampleCount >= 1
      modifies this`results, this`series, this`sampleCount, this`samples
      ensures Valid()
      ensures results == Reduced(lib, old(samples), old(sampleCount))
      ensures forall k: Key ::
        |series[k]| == |old(series[k])| && forall i | 0 <= i < |series[k]| :: series[k][i] == 0.0
      ensures samples == EmptyTable
      ensures sampleCount == 0
    {
      hide Reduced, Tracks;
      TracksReduce(series, samples, sampleCount, lib);
      RecordResults();
      ClearVectors();
      sampleCount := 0;
      samples := EmptyTable;
      TracksCleared(series);
    }

    /** The loop of `FinishEvaluating`: the result of every key's reducer. */
    method RecordResults()
      requires Shaped() && sampleCount >= 1
      modifies this`results
      ensures results == Reduced(lib, series, sampleCount)
    {
      hide Reduce, Reduced;
      ghost var target := Reduced(lib, series, sampleCount);
      KeysIndexed();
      for i := 0 to |Keys|
        invariant forall k: Key :: Index(k) < i ==> k in results && results[k] == target[k]
      {
        var k := Keys[i];
        results := results[k := Reduce(lib, k, series[k], sampleCount)];
      }
      assert forall k: Key :: k in results && k in target && results[k] == target[k];
    }

    /** What the average reducer makes of a key's series: the sum of the
        samples appended since the last finish, over their number. */
    lemma AverageOfSamples(k: Key)
      requires Valid() && sampleCount >= 1
      ensures Mean(series[k], sampleCount) == Sum(samples[k]) / (sampleCount as real)
    {
    }
  }
}
