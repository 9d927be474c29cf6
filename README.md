# Interacting-multiple-model tracker: a Dafny model

This project models the estimation core of a target tracker. The tracker follows a
moving target from noisy (range, bearing) measurements. The model has three parts:

- **`KalmanFilter`** (src/KalmanFilter.cpp). A five-state filter over [x, ẋ, y, ẏ, ω].
  It converts each polar measurement to Cartesian coordinates, debiasing when the target
  is far away. It then predicts and corrects its state and covariance. Finally it reports
  the likelihood of the last innovation.
- **`IMM`** (src/IMM.cpp). An interacting-multiple-model combiner over two such filters.
  It does five things:
  - computes the normalising constants and the mixing probabilities from the mode
    transition matrix;
  - mixes the filter estimates;
  - collects the filters' likelihoods;
  - updates the mode probabilities;
  - fuses the filter estimates into one.
- **`PerformanceEvaluator`** (src/PerformanceEvaluator.cpp). A table of eight named
  sample series, one per accuracy metric: NORXE, FPOS, FVEL, RMSPOS, RMSVEL, RMSSPD,
  RMSCRS and NEES. Each cycle appends one sample per metric. A finish reduces each series
  to an average, a root-mean or a root-mean-square over the sample count. It then zeroes
  the series for the next run.

Files:

- `linalg.dfy` (module `LinAlg`): vectors as `seq<real>` and matrices as
  `seq<seq<real>>`, with the algebra the proofs need. This includes associativity of
  products, transposes of products and symmetry of congruences.
- `transcendental.dfy` (module `Transcendental`): sin, cos, exp, sqrt, atan2 and the
  matrix inverse, as function values in a `Library`. `Lawful` states the only laws used:
  exp is positive, sin² + cos² = 1, sqrt of a nonnegative number is its nonnegative
  root (sqrt 0 = 0), and an inverse keeps the matrix square.
- `kalman.dfy` (module `Kalman`): the filter as a class whose methods update its fields.
  The covariance and state recursions are functions of the matrices involved.
- `imm.dfy` (module `Imm`): the combiner as a class over two filter objects. The mixing
  loop is also given as a function of its state (`MixPrefix`), step by step.
- `evaluator.dfy` (module `Evaluation`): the evaluator as a class over a map from metric
  key to series.

Eigen's fixed-size vectors and matrices are values in the source, so the model uses
sequence fields that are reassigned whole. Eigen members that the source leaves
uninitialised start at zero in the model. Examples are the filter's `_x` and `_P`, and
the IMM's `_c`, `_muMix`, `_Lambda`, `_mixed`, `_x` and `_P`.

## Model

| member | source | states |
|---|---|---|
| Kalman.PredictedCovariance | src/KalmanFilter.cpp:86 | F·P·Fᵀ + Q is a 5 × 5 matrix |
| Kalman.InnovationCovariance | src/KalmanFilter.cpp:87 | R + H·P·Hᵀ is a 2 × 2 matrix |
| Kalman.Gain | src/KalmanFilter.cpp:88 | P·Hᵀ·S⁻¹ is a 5 × 2 matrix |
| Kalman.CorrectedCovariance | src/KalmanFilter.cpp:89 | P − W·S·Wᵀ is a 5 × 5 matrix |
| Kalman.CorrectedState | src/KalmanFilter.cpp:93-96 | x + W·(z − H·x) is a state vector |
| Kalman.CovarianceCycleSymmetric | src/KalmanFilter.cpp:85-90 | symmetric P, Q and R give a symmetric predicted covariance, innovation covariance and corrected covariance, whatever the inverse returns |
| Kalman.ZeroInnovationKeepsPrediction | src/KalmanFilter.cpp:92-97 | a measurement equal to the predicted measurement leaves the predicted state uncorrected |
| Kalman.InitialCovariance | src/KalmanFilter.cpp:41-47 | the initial covariance is 5 × 5 |
| Kalman.InitialCovarianceIsFiniteDifference | src/KalmanFilter.cpp:43-47 | each 2 × 2 position–velocity block is the covariance of (z₁, (z₁ − z₀)/Ts) for independent samples; other entries are 0 except P₄₄ = Rx; the whole matrix is symmetric |
| Kalman.FiniteDifferenceEntries | src/KalmanFilter.cpp:43-46 | that finite-difference covariance has entries rv, rv/Ts, rv/Ts, 2·rv/Ts² |
| Kalman.NearFieldCovariance | src/KalmanFilter.cpp:78-80 | the converted covariance without debiasing is a symmetric 2 × 2 matrix |
| Kalman.PolarPropagation | src/KalmanFilter.cpp:76-80 | that covariance is J·diag(σr², σθ²)·Jᵀ for the Jacobian J of the polar-to-Cartesian map |
| Kalman.NearFieldDeterminant | src/KalmanFilter.cpp:78-80 | its diagonal is nonnegative and its determinant is (σr·σθ·r)², so it is positive semidefinite |
| Kalman.KalmanFilter.constructor | src/KalmanFilter.cpp:9-29 | stores every parameter; validity constant = σθ²/σr; the initial R is kept; t = 0 |
| Kalman.KalmanFilter.Copy | src/IMM.cpp:8-9 | a copy of a filter is valid and has all its fields (`SameAs`) |
| Kalman.KalmanFilter.DebiasFactor | src/KalmanFilter.cpp:67 | b₁ = exp(−σθ²/2) is positive |
| Kalman.KalmanFilter.CartesianOf | src/KalmanFilter.cpp:61-83 | the converted measurement is a 2-vector |
| Kalman.KalmanFilter.ConvertedCovariance | src/KalmanFilter.cpp:66-81 | the converted R is symmetric on both branches |
| Kalman.KalmanFilter.DebiasedCovariance | src/KalmanFilter.cpp:71-73 | the debiased R is symmetric |
| Kalman.KalmanFilter.NearFieldCovarianceIsLinearised | src/KalmanFilter.cpp:75-81 | below the threshold, the converted R is the linearised propagation of the polar noise |
| Kalman.KalmanFilter.NearFieldCovariancePositiveSemidefinite | src/KalmanFilter.cpp:78-80 | below the threshold, the converted R has nonnegative diagonal and determinant (σr·σθ·r)² |
| Kalman.KalmanFilter.ConvertedRangeRecovered | src/KalmanFilter.cpp:66-77 | the distance of the converted point from the sensor is r, or r/b₁ when debiased |
| Kalman.KalmanFilter.ConvertToCartesian | src/KalmanFilter.cpp:61-83 | returns the converted point; sets R to the converted covariance, which is symmetric |
| Kalman.KalmanFilter.Initialize | src/KalmanFilter.cpp:31-48 | the state is position z₁ and velocity (z₁ − z₀)/Ts on each axis, with ω = 0; P is the finite-difference covariance built from R after converting z₁ |
| Kalman.KalmanFilter.UpdateCovarianceAndGain | src/KalmanFilter.cpp:85-90 | S, W and P are the innovation covariance, gain and corrected covariance of the predicted covariance |
| Kalman.KalmanFilter.UpdateStateEstimate | src/KalmanFilter.cpp:92-97 | predicted measurement, residual and corrected state are computed from the predicted state |
| Kalman.KalmanFilter.Update | src/KalmanFilter.cpp:50-59 | converts the measurement, takes F from the old state, runs both recursions, increments t and returns the new (x, P) |
| Kalman.KalmanFilter.GetEstimate | src/KalmanFilter.cpp:99-101 | a valid filter hands out its (x, P) as a 5-vector with a 5 × 5 covariance |
| Kalman.KalmanFilter.Reinitialize | src/KalmanFilter.cpp:103-106 | the filter's estimate becomes the given one |
| Kalman.KalmanFilter.GetLikelihood | src/KalmanFilter.cpp:108-114 | exp(−½·vᵀS⁻¹v) is positive |
| Kalman.KalmanFilter.GetRealZ | src/KalmanFilter.cpp:116-118 | a valid filter hands out the converted measurement of its last update, a 2-vector (`Update` ensures it is `CartesianOf` the reading) |
| Imm.InitialParametersWellFormed | src/IMM.cpp:10-12 | the initial transition matrix is row-stochastic and positive; the initial mode probabilities are a distribution |
| Imm.FirstMixingProbabilities | src/IMM.cpp:10-12 | from the initial parameters the normalising constants are (.5, .5) and the mixing probabilities equal the transition matrix |
| Imm.NormalizingConstants | src/IMM.cpp:24-31 | c = μᵀ·p has one entry per mode; `NormalizingConstantsDistribution` proves it a distribution |
| Imm.MixingProbabilities | src/IMM.cpp:33-40 | μ_mix is an n × n matrix; `MixingProbabilitiesStochastic` proves its columns are distributions |
| Imm.ModePosterior | src/IMM.cpp:63-71 | the posterior has one entry per mode; `ModePosteriorIsDistribution` proves it a distribution |
| Imm.FusedMean | src/IMM.cpp:80-83 | the weighted sum of the first k states, accumulated from zero, is a state vector; `FusedMeanOfAgreement` proves agreeing states fuse to themselves |
| Imm.FusedCovariance | src/IMM.cpp:84-89 | the weighted spread sum of the first k estimates about a mean is 5 × 5; `FusedCovarianceSymmetric` proves it symmetric |
| Imm.Fused | src/IMM.cpp:73-89 | the fused mean with the spread covariance about it form an estimate |
| Imm.NormalizingConstantsDistribution | src/IMM.cpp:24-31 | c_j = Σᵢ p_ij·μᵢ is a distribution with positive entries, for a positive stochastic p and a distribution μ |
| Imm.MixingProbabilitiesStochastic | src/IMM.cpp:33-40 | every column of p_ij·μᵢ/c_j sums to 1, with entries in [0, 1] |
| Imm.ModePosteriorIsDistribution | src/IMM.cpp:63-71 | λᵢ·cᵢ / Σⱼ λⱼ·cⱼ is a distribution |
| Imm.Evidence | src/IMM.cpp:65-67 | the normaliser Σⱼ λⱼ·cⱼ is positive for positive likelihoods and constants |
| Imm.FusedMeanOfCommonState | src/IMM.cpp:80-83 | fusing estimates that share a state y gives (Σ w)·y |
| Imm.FusedMeanOfAgreement | src/IMM.cpp:80-83 | with weights summing to 1, fusing estimates that agree returns their common state |
| Imm.FusedCovarianceSymmetric | src/IMM.cpp:84-89 | the fused covariance Σ wᵢ·(Pᵢ + dᵢ·dᵢᵀ) is symmetric when every Pᵢ is |
| Imm.MixSettles | src/IMM.cpp:42-53 | once row j of the mixing loop is done, filter j holds accumulator j |
| Imm.MixedFiltersHoldAccumulators | src/IMM.cpp:42-53 | after the whole loop each filter holds its accumulator |
| Imm.MixStep | src/IMM.cpp:45-49 | one inner-loop body: the accumulator gains w·xᵢ and w·(Pᵢ + d·dᵀ) with d taken against the running sum; the result is an estimate |
| Imm.MixAdvance | src/IMM.cpp:45-50 | run (j, i) changes accumulator j and filter j to the same new estimate and nothing else |
| Imm.MixPrefix | src/IMM.cpp:43-52 | the state after the first k runs of the nested loop, j outer and i inner, is well formed |
| Imm.MixAsWrittenDrifts | src/IMM.cpp:42-53 | two filters agreeing on x₀ = 1 with zero covariance leave filter 1 at x₀ = 0.19 after mixing, where fusion gives 1 |
| Imm.IMM.Likelihoods | src/IMM.cpp:58-60 | the filters' likelihoods are positive |
| Imm.IMM.constructor | src/IMM.cpp:7-13 | holds fresh, distinct copies of f1 and f2 (same configuration and state, `SameAs`); p and μ get their initial values and μ is a distribution; c, Λ, μ_mix, both mixed accumulators, x and P are zero |
| Imm.IMM.CalculateNormalizingConstants | src/IMM.cpp:24-31 | c is the vector of normalising constants of p and μ |
| Imm.IMM.CalculateMixingProbabilities | src/IMM.cpp:33-40 | c is recomputed and μ_mix is the matrix of mixing probabilities |
| Imm.IMM.Mix | src/IMM.cpp:42-53 | accumulators and filter estimates are those of the in-place loop (`MixPrefix`); afterwards each filter holds its accumulator |
| Imm.IMM.MixRow | src/IMM.cpp:44-51 | the inner loop for accumulator j advances the pass from run n·j to run n·(j + 1) of `MixPrefix` |
| Imm.IMM.MixTerm | src/IMM.cpp:45-50 | one run of the loop body changes the accumulators and the filters' estimates exactly as `MixAdvance` |
| Imm.IMM.MixAsIntended | src/IMM.cpp:42-53 | each filter j is reinitialised with the fusion of the pre-mixing estimates under column j of μ_mix |
| Imm.IMM.GetLikelihoods | src/IMM.cpp:55-61 | the stored filters are left unchanged and λ holds their likelihoods |
| Imm.IMM.UpdateFilterLikelihoods | src/IMM.cpp:55-61 | each stored filter is left in the full state one `Update` on z produces from its prior estimate (`UpdatedFrom`: converted z and R, F, S, W, P, predicted z, residual, corrected x, t + 1); λ holds the likelihoods of those new residuals |
| Imm.IMM.UpdateModeProbabilities | src/IMM.cpp:63-71 | μ becomes the mode posterior of λ and c |
| Imm.IMM.Estimate | src/IMM.cpp:73-89 | x is the μ-weighted mean of the filter states; P is the μ-weighted spread-of-means covariance about x |
| Imm.IMM.Update | src/IMM.cpp:15-22 | runs the phases in order; leaves c positive, μ a distribution equal to the mode posterior, and returns the fused (x, P) |
| Imm.IMM.UpdateAsIntended | src/IMM.cpp:15-22 | the same cycle with fused mixing: each filter k is left in the state one `Update` on z produces from mixed[k] (`UpdatedFrom`), and λ, μ and the fused (x, P) are those of the updated filters |
| Imm.FreshEstimatorDrifts | src/IMM.cpp:7-53 | an estimator built from two copies of one filter at (1, 0, 0, 0, 0) with zero covariance holds 0.19 in filter 1's first coordinate after the first mixing pass |
| Evaluation.ReducerOf | src/PerformanceEvaluator.cpp:11-68 | NORXE and NEES are averaged, FPOS and FVEL root-meaned, the other four root-mean-squared |
| Evaluation.Measure | src/PerformanceEvaluator.cpp:11-68 | the per-sample metric of each key; the FPOS and FVEL samples are nonnegative when the diagonal entries they add are |
| Evaluation.NormalizedErrorScaled | src/PerformanceEvaluator.cpp:126-129 | for P₀₀ > 0 the NORXE sample squared, times P₀₀, is the squared x error; the sample has the sign of the x error and is zero exactly when the x coordinates agree |
| Evaluation.PositionVariance | src/PerformanceEvaluator.cpp:131-134 | FPOS is P₀₀ + P₂₂, nonnegative when both are |
| Evaluation.VelocityVariance | src/PerformanceEvaluator.cpp:136-139 | FVEL is P₁₁ + P₃₃, nonnegative when both are |
| Evaluation.PositionErrorIsDistance | src/PerformanceEvaluator.cpp:141-144 | the RMSPOS sample is nonnegative, symmetric in estimate and truth, squares to the squared (x, y) distance, and is 0 when the positions agree |
| Evaluation.VelocityErrorIsDistance | src/PerformanceEvaluator.cpp:146-149 | the RMSVEL sample is the same distance between the (ẋ, ẏ) velocities |
| Evaluation.SpeedErrorBounded | src/PerformanceEvaluator.cpp:151-156 | the RMSSPD sample changes sign when estimate and truth swap, is 0 when the velocities agree, and never exceeds the RMSVEL sample in size |
| Evaluation.CourseErrorAntisymmetric | src/PerformanceEvaluator.cpp:158-163 | the RMSCRS sample changes sign when estimate and truth swap and is 0 when the velocities agree |
| Evaluation.NormalizedErrorSquared | src/PerformanceEvaluator.cpp:165-169 | the NEES sample is the quadratic form eᵀ·(P⁻¹·e) with e = x_real − x_est |
| Evaluation.SumOfSquares | src/PerformanceEvaluator.cpp:115 | Σx² is nonnegative, and zero for a series of zeros |
| Evaluation.Mean | src/PerformanceEvaluator.cpp:108-111 | the average times the sample count is the series sum |
| Evaluation.MeanSquare | src/PerformanceEvaluator.cpp:113-119 | the mean square, the argument of sqrt, is nonnegative; times the count it is Σx² |
| Evaluation.Reduce | src/PerformanceEvaluator.cpp:108-124 | the reducer of each key applied to a series and the count |
| Evaluation.ReduceBySums | src/PerformanceEvaluator.cpp:108-124 | a reduction depends on a series only through its sum and its sum of squares |
| Evaluation.ZeroPaddingInvisible | src/PerformanceEvaluator.cpp:97-102 | zeros left in a series by an earlier finish change neither sum, so the next run's results are those of its own samples |
| Evaluation.SumOfZeros | src/PerformanceEvaluator.cpp:97-102 | a zeroed series sums to zero |
| Evaluation.TracksAppend | src/PerformanceEvaluator.cpp:70-81 | appending one cycle keeps every series' sums equal to those of the samples since the last finish, with one more sample |
| Evaluation.TracksReduce | src/PerformanceEvaluator.cpp:83-95 | while that holds, reducing the series gives what reducing the samples gives |
| Evaluation.TracksCleared | src/PerformanceEvaluator.cpp:93-94 | zeroed series with no samples and a count of 0 satisfy that invariant |
| Evaluation.PerformanceEvaluator.constructor | src/PerformanceEvaluator.cpp:11-68 | every one of the eight keys has an empty series; the ghost table of samples since the last finish is empty; count 0; no results |
| Evaluation.PerformanceEvaluator.WithFilename | src/PerformanceEvaluator.cpp:7-9 | the same, with the results file name set |
| Evaluation.PerformanceEvaluator.SetFilename | src/PerformanceEvaluator.cpp:104-106 | the file name is replaced |
| Evaluation.PerformanceEvaluator.EvaluateIntermediate | src/PerformanceEvaluator.cpp:70-81 | every series gets exactly its key's metric appended, and the same row is appended to the ghost table of samples since the last finish; the count grows by 1; the key set and the invariant are kept |
| Evaluation.PerformanceEvaluator.AppendSamples | src/PerformanceEvaluator.cpp:74-79 | the loop appends one metric value to each series |
| Evaluation.PerformanceEvaluator.ClearVectors | src/PerformanceEvaluator.cpp:97-102 | every stored value becomes 0.0 and no series changes length |
| Evaluation.PerformanceEvaluator.ZeroSeries | src/PerformanceEvaluator.cpp:99-100 | one key's series becomes zeros of the same length; the others are untouched |
| Evaluation.PerformanceEvaluator.RecordResults | src/PerformanceEvaluator.cpp:85-90 | each key's result is its reducer applied to its series |
| Evaluation.PerformanceEvaluator.FinishEvaluating | src/PerformanceEvaluator.cpp:83-95 | each key's result is its reducer applied to the samples appended since the last finish; series zeroed, same lengths; the sample table emptied; count 0; invariant re-established |
| Evaluation.PerformanceEvaluator.AverageOfSamples | src/PerformanceEvaluator.cpp:108-111 | the average of a series is the sum of its samples since the last finish (the rows the constructor, EvaluateIntermediate and FinishEvaluating pin), over the count |

## Left out

- Transcendentals. sin, cos, exp, sqrt, atan2 and Eigen's `inverse()` are function values in a `Library` parameter. Only exp > 0, sin² + cos² = 1, sqrt as the nonnegative root of a nonnegative number and the square shape of an inverse are assumed of them. `pow(a, 2)` is written as a·a.
- IEEE doubles are modelled as exact reals: no rounding, no overflow, no NaN or infinity.
- File and console output are not modelled: the `ofstream` writes in `FinishEvaluating`, the `cout` lines in `CalculateRMS` and `operator<<` for the filter. Results stay in the `results` map.
- The default `KalmanFilter()` constructor (src/KalmanFilter.cpp:7) is left out. It leaves the Eigen matrices and the doubles uninitialised and the `std::function` members empty, so no filter it builds can convert or predict.
- include/KalmanFilter.h declares a different constructor and fields that the .cpp file does not use. The model follows src/KalmanFilter.cpp.
- IMM.h is not part of this model. `_mixed` is taken to hold two zero estimates at construction. `NUM_FILTERS` is taken to be 2.
- PerformanceEvaluator.h is not part of this model. So `_sampleCount` is taken to start at 0. `abs` in the course error is taken as the floating-point absolute value.
- `UpdateModeProbabilities` reads `double c;` without initialising it (IMM.cpp:64). The model starts that sum at 0.
- `GetLikelihood` builds 2π·S but never uses it (KalmanFilter.cpp:109). The likelihood is therefore unnormalised, as in the source.
- The evaluator's key names become the constructors of an enumeration `Key`. The model keeps the name order in which the table is iterated, but not the strings.
- Kalman.KalmanFilter.UpdateCovarianceAndGain: symmetry of the new P is not restated in the method. It is proved of the functions it applies, by `Kalman.CovarianceCycleSymmetric`.
- Kalman.KalmanFilter.constructor: requires σr ≠ 0. The program divides by σr for the validity constant (src/KalmanFilter.cpp:27) and would store an infinite or NaN one.
- Kalman.KalmanFilter.Initialize: requires Ts ≠ 0. The program divides by Ts for both velocities (src/KalmanFilter.cpp:35-38).
- Evaluation.NormalizedError: requires sqrt(P₀₀) ≠ 0. The program would record an infinite or NaN sample there, and the model has no such values.
- Evaluation.PerformanceEvaluator.EvaluateIntermediate: requires sqrt(P₀₀) ≠ 0, for the same reason.
- Evaluation.PerformanceEvaluator.FinishEvaluating: requires at least one sample. With none, every reducer in the program divides by zero.
- Imm.IMM.CalculateMixingProbabilities: requires nonzero normalising constants, for the same reason.
- Imm.IMM.UpdateModeProbabilities: requires a nonzero normaliser, for the same reason.

## Findings

| source | as written | input that shows it | evidently intended | confidence | as-written member | corrected member |
|---|---|---|---|---|---|---|
| src/IMM.cpp:42-53 | `Mix` writes accumulator j into filter j inside the inner loop. Mixing for j = 1 therefore reads filter 0 after it has already been reinitialised. The accumulators are also never reset between cycles, and the spread term uses the running sum instead of the final mixed mean. | a new estimator built from two copies of one filter at x = (1, 0, 0, 0, 0) with zero covariance: after the first mixing probabilities and mixing pass, filter 1 holds x₀ = 0.19 | each filter is reinitialised with the fusion of the pre-mixing estimates under its mixing column, which returns x₀ = 1 here | high (not executed) | Imm.FreshEstimatorDrifts | Imm.IMM.MixAsIntended |
| src/IMM.cpp:55-61 | `for (auto x : _filters) x.Update(z);` updates copies of the filters. The stored filters never see a measurement, so their likelihoods come from a stale residual. | any cycle: the stored filters' step count t is unchanged after `GetLikelihoods` | each stored filter is updated with z before its likelihood is read | high (not executed) | Imm.IMM.GetLikelihoods | Imm.IMM.UpdateFilterLikelihoods |
