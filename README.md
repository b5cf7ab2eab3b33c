# Roll-decay estimators in Dafny

This project models the core of `rolldecayestimators`, a library that
identifies the roll damping and restoring coefficients of a ship from a
free roll-decay test. A record of roll angle `phi` (and optionally the rate
`phi1d` and acceleration `phi2d`) indexed by time goes through a pipeline
with three stages:

- **CutTransformer** trims the record. It starts at the largest roll angle,
  then at the first opposite extreme. It drops large angles at the start and
  small angles at the end.
- **ScaleFactorTransformer** converts a model-scale record to full scale by
  Froude scaling. Time is multiplied by the square root of the scale factor.
  The rate is divided by that root, and the acceleration by the scale factor.
- **RollDecay** (the base estimator) and its **EstimatorCubic** family fit an
  equation of motion by least squares. The fit is either on the acceleration
  (`derivation`) or on the angle of a simulated decay (`integration`). The
  family has four variants: Cubic, QuadraticB, QuadraticBandC and Linear.
  Each variant differs in its damping law (B44) and its restoring law (C44).
  It also assembles a record for a results database. That record holds the
  total roll inertia `A_44` (including added mass), the dimensional
  coefficients and the natural frequency.

Modules:
- `Common`: Option, Result and Outcome; the exceptions as `Error`; extended
  reals `Ext` for bounds and infinite residuals.
- `Series`: rows and frames, the columns, first arg-max and arg-min, and the
  last index at or above a bound.
- `Laws`: the linear roll-decay acceleration and the B44 and C44 laws of the
  variants.
- `Transformers`: both transformers. `CutTransformer` and
  `ScaleFactorTransformer` are classes whose `Fit` sets `nFeatures`.
  `ScaleFactorTransformer.Transform` scales a copy of the frame in place in
  an array.
- `Estimator`: `RollDecay`, a class whose fields are the estimator's
  attributes (`X`, `result`, `parameters`, `isFitted`, `simulationResult`,
  and so on). It is specified by pure functions over a `Config` snapshot of
  the fields the residual reads.
- `Variants`: the EstimatorCubic constructor, the four `simulate` maps,
  `calculate_additional_parameters` and `result_for_database`.

Four numerical routines enter the model as function-valued parameters, and
the model states what the estimator does around them:

- the ODE solver (`Ivp`);
- the least-squares solver (`LeastSquares`);
- the FFT (`Fft`);
- the evaluation of a generated sympy equation (`Law.eval`, `Run`, `BackSolve`).

Three behaviours of the code are worth stating on their own:

- `fft_omega0` takes the arg-max over every FFT bin, the zero-frequency bin
  included, and the signal is not de-trended first. `FftOmega0PicksZeroBin`
  states that a spectrum whose zero-frequency bin is largest gives a
  natural frequency of 0.
- `EstimatorCubic.__init__` adds a default bound keyed `B_1_A`. The fitted
  names are the arguments of the generated acceleration law, which comes
  from an equation module outside this model. The `simulate` keyword maps
  spell the coefficients `B_1A` (Cubic) and `B_1` (the other variants). If
  the law's arguments follow those spellings, the default bound never
  reaches the solver. `DefaultBoundUnused` states this for any law without
  a `B_1_A` argument.
- Integration fits simulate from the first observed angle with an initial
  rate of exactly 0.0 (`Estimate`). The observed rate is ignored
  (`IntegrationIgnoresObservedRate`).

## Model

| member | source | states |
|---|---|---|
| Series.Column | rolldecayestimators/estimator.py:115-117 | `X[key]` succeeds exactly for `phi` and for a present `phi1d`/`phi2d` column; otherwise it is a missing-column error naming the key; each column holds that field of every row, in row order |
| Series.FirstArgMax | rolldecayestimators/estimator.py:274 | the index is the first position of a largest value: no value exceeds it and every earlier value is strictly smaller |
| Series.FirstArgMin | rolldecayestimators/transformers.py:91 | the index is the first position of a smallest value |
| Series.LastAtLeast | rolldecayestimators/transformers.py:98-102 | none exactly when every value is below the bound; otherwise the last position at or above it |
| Transformers.FitCheck | rolldecayestimators/transformers.py:47-52 | phi_max too small iff the record is non-empty and every \|phi\| exceeds it; phi_min too large iff the first check passes and every \|phi\| is below phi_min; an empty record passes |
| Transformers.CutTransformer.constructor | rolldecayestimators/transformers.py:22-25 | stores both thresholds and starts unfitted |
| Transformers.CutTransformer.Fit | rolldecayestimators/transformers.py:27-55 | records the column count before checking, and returns the threshold check's outcome |
| Transformers.CutTransformer.Transform | rolldecayestimators/transformers.py:57-114 | not fitted raises; an empty record raises; otherwise the frame with its rows cut by the four steps, columns unchanged |
| Transformers.CutToPeak | rolldecayestimators/transformers.py:84-86 | the record from the first row of largest \|phi\|: non-empty and no longer than the input (the row properties are `PeakStartsCut`) |
| Transformers.CutToOpposite | rolldecayestimators/transformers.py:88-95 | the record from the first opposite extreme: non-empty and no longer than the input (the row properties are `OppositeIsExtreme`) |
| Transformers.TrimLarge | rolldecayestimators/transformers.py:97-103 | the record from the last row reaching phi_max: never longer, non-empty when the input is (the row properties are `TrimLargeBounds`) |
| Transformers.TrimSmall | rolldecayestimators/transformers.py:105-111 | the record up to the last row reaching phi_min: never longer, non-empty when the input is (the row properties are `TrimSmallBounds`) |
| Transformers.Cut | rolldecayestimators/transformers.py:83-111 | the four steps in order on a non-empty record give a non-empty record no longer than the input (a window of it by `CutIsWindow`) |
| Transformers.PeakStartsCut | rolldecayestimators/transformers.py:84-86 | the first cut starts at a row of largest \|phi\|, and every dropped row is strictly smaller |
| Transformers.OppositeIsExtreme | rolldecayestimators/transformers.py:88-95 | after a positive start the second cut begins at the first smallest phi, otherwise at the first largest; no dropped row is as extreme |
| Transformers.TrimLargeBounds | rolldecayestimators/transformers.py:97-103 | the record is kept when no \|phi\| reaches phi_max; otherwise it starts at a row reaching it and no later row reaches it |
| Transformers.TrimSmallBounds | rolldecayestimators/transformers.py:105-111 | the record is kept when no \|phi\| reaches phi_min (always when phi_min <= 0); otherwise it ends at a row reaching it, and every dropped trailing row is below phi_min, so the cut is at the last such row |
| Transformers.CutIsWindow | rolldecayestimators/transformers.py:83-111 | the cut is one non-empty contiguous run of the input, starting no earlier than the peak |
| Transformers.DefaultPhiMinKeepsEnd | rolldecayestimators/transformers.py:105-111 | with the default phi_min = 0 the last step removes nothing |
| Transformers.DefaultCutTransformer | rolldecayestimators/transformers.py:22-25 | defaults: phi_max is 90 degrees in radians and phi_min is 0; unfitted |
| Transformers.ScaledRow | rolldecayestimators/transformers.py:318-324 | time times the root; the rate divided by the root and the acceleration by the factor, each only when its column exists; the angle unchanged |
| Transformers.ScaledRows | rolldecayestimators/transformers.py:318-324 | every row scaled, the length kept |
| Transformers.ScalingKeepsTimeOrder | rolldecayestimators/transformers.py:319 | scaling keeps the time index strictly increasing |
| Transformers.ScalingRoundTrip | rolldecayestimators/transformers.py:318-324 | scaling with factor s and then with 1/s restores the record |
| Transformers.ScaleFactorTransformer.constructor | rolldecayestimators/transformers.py:263-266 | stores the factor and its root; starts unfitted |
| Transformers.ScaleFactorTransformer.Fit | rolldecayestimators/transformers.py:268-289 | records the column count |
| Transformers.ScaleFactorTransformer.Transform | rolldecayestimators/transformers.py:291-327 | not fitted raises; otherwise a new frame of scaled rows with the same columns |
| Transformers.ScaleTimes | rolldecayestimators/transformers.py:319 | every time in the array multiplied by the root, nothing else changed |
| Transformers.ScaleRates | rolldecayestimators/transformers.py:320-321 | every rate in the array divided by the root, nothing else changed |
| Transformers.ScaleAccelerations | rolldecayestimators/transformers.py:323-324 | every acceleration in the array divided by the factor, nothing else changed |
| Laws.LinearAcceleration | rolldecayestimators/estimator.py:19-21 | upright at rest is an equilibrium; without damping the acceleration always points back towards upright |
| Laws.CubicDamping | rolldecayestimators/direct_estimator_cubic.py:26 | no moment at rest; with non-negative coefficients the moment has the sign of the rate |
| Laws.QuadraticDamping | rolldecayestimators/direct_estimator_cubic.py:152 | no moment at rest; with non-negative coefficients the moment has the sign of the rate |
| Laws.LinearDamping | rolldecayestimators/direct_estimator_cubic.py:247 | no moment at rest; with a non-negative coefficient the moment has the sign of the rate |
| Laws.QuinticRestoring | rolldecayestimators/direct_estimator_cubic.py:27 | no moment upright; with non-negative coefficients the moment has the sign of the angle |
| Laws.CubicRestoring | rolldecayestimators/direct_estimator_cubic.py:200 | no moment upright; with non-negative coefficients the moment has the sign of the angle |
| Laws.LinearRestoring | rolldecayestimators/direct_estimator_cubic.py:153 | no moment upright; with a non-negative coefficient the moment has the sign of the angle |
| Laws.LinearAccelerationSolvesEquation | rolldecayestimators/estimator.py:19-21 | the base acceleration is the unique solution of the linear roll-decay equation for phi2d |
| Laws.DampingIsOdd | rolldecayestimators/direct_estimator_cubic.py:26 | every damping law is zero at rest and odd in the rate |
| Laws.RestoringIsOdd | rolldecayestimators/direct_estimator_cubic.py:27 | every restoring law is zero upright and odd in the angle |
| Laws.DampingNests | rolldecayestimators/direct_estimator_cubic.py:152 | linear and quadratic damping are the cubic law with coefficients set to zero |
| Laws.RestoringNests | rolldecayestimators/direct_estimator_cubic.py:200 | linear and cubic restoring are the quintic law with coefficients set to zero |
| Laws.DampingDissipates | rolldecayestimators/direct_estimator_cubic.py:26 | with non-negative coefficients the damping moment has the sign of the rate |
| Laws.LinearLawIsLinearVariant | rolldecayestimators/direct_estimator_cubic.py:247-248 | the base law is minus the linear damping and restoring moments with coefficients 2 zeta omega0 and omega0^2 (the normalised B1/A44 and C1/A44) |
| Estimator.ParameterNamesOf | rolldecayestimators/estimator.py:60-68 | the regressed names are exactly the law's arguments other than phi and phi1d, and other than omega0 unless it is regressed; each appears once |
| Estimator.Zip | rolldecayestimators/estimator.py:77 | keys are the names up to the shorter length, each bound to its value |
| Estimator.RollDecayTimeStep | rolldecayestimators/estimator.py:168-181 | succeeds iff the parameters bind exactly the law's arguments besides the state; the first derivative is the rate |
| Estimator.LinearTimeStep | rolldecayestimators/estimator.py:168-181 | for the base law the state derivative is (phi1d, linear acceleration) |
| Estimator.Shifted | rolldecayestimators/estimator.py:155 | the shifted times start at zero and keep every difference |
| Estimator.SolverRun | rolldecayestimators/estimator.py:155-160 | empty times fail; otherwise the solver runs iff the law accepts the parameters, over the shifted span evaluated at the shifted times |
| Estimator.SimulationFrame | rolldecayestimators/estimator.py:159-166 | a failed run raises; a successful run becomes a frame on the original times with the solver's angle and rate |
| Estimator.Simulation | rolldecayestimators/estimator.py:147-166 | empty times and unacceptable parameters fail; otherwise the frame built from the solver's run, so a reported solver failure raises and a result holds the solver's angle and rate on the given times |
| Estimator.FftOmega0 | rolldecayestimators/estimator.py:271-277 | 2 pi times the frequency of the first bin of largest magnitude; an empty spectrum fails, and a non-empty one succeeds exactly when that bin has a frequency |
| Estimator.FftOmega0NonNegative | rolldecayestimators/estimator.py:272-277 | non-negative frequencies give a non-negative natural frequency |
| Estimator.FftOmega0PicksZeroBin | rolldecayestimators/estimator.py:274-276 | for every spectrum whose zero-frequency bin is at least every other bin, omega0 = 0 |
| Estimator.Omega0 | rolldecayestimators/estimator.py:258-269 | without a stored frame it is an attribute error; otherwise the spectral pick of the stored angle |
| Estimator.TrialParameters | rolldecayestimators/estimator.py:77-80 | regressed names paired with the vector; omega0 added from the spectrum when not regressed, and its failure propagates |
| Estimator.EstimateAcceleration | rolldecayestimators/estimator.py:82-85 | needs the rate column; succeeds iff the parameters and state bind the law's arguments; one finite value per row |
| Estimator.LinearEstimate | rolldecayestimators/estimator.py:96-98 | for the base law each estimate is the linear acceleration of the observed state |
| Estimator.EstimateIntegration | rolldecayestimators/estimator.py:100-110 | a failed simulation becomes +inf at every time; success gives finite values, and the angle target is the simulated angle |
| Estimator.Estimate | rolldecayestimators/estimator.py:76-94 | parameter errors first; an unknown method raises; derivation is the law evaluated on the observed states; integration simulates from the first observed angle with rate 0.0 and, with an angle or rate target, always yields an estimate per row |
| Estimator.IntegrationIgnoresObservedRate | rolldecayestimators/estimator.py:86-92 | integration estimates depend only on the times and angles, not the observed rate |
| Common.Minus | rolldecayestimators/estimator.py:73 | a finite residual added to the estimate gives back the observation; it is zero exactly when the estimate equals the observation; an infinite estimate gives an infinite residual of opposite sign |
| Estimator.Residual | rolldecayestimators/estimator.py:70-73 | fails iff the estimate fails; each entry is the observation minus the estimate, zero iff they match |
| Estimator.BoundsOf | rolldecayestimators/estimator.py:235-248 | succeeds iff every parameter's bound (default unbounded) is a pair; the minimums and maximums in name order |
| Estimator.BoundsOfKeepsFailure | rolldecayestimators/estimator.py:241-246 | a failure on a prefix of the names is the failure of the whole |
| Estimator.BoundsOfFirstBad | rolldecayestimators/estimator.py:241-246 | the failure names the first parameter whose bound is not a pair |
| Estimator.InitialGuessOf | rolldecayestimators/estimator.py:250-256 | one guess per name: the caller's p0 value, else 0.5 |
| Estimator.RollDecay.constructor | rolldecayestimators/estimator.py:24-37 | stores the settings; the target column follows the method; unfitted |
| Estimator.RollDecay.SetFitMethod | rolldecayestimators/estimator.py:39-47 | the method is always stored; derivation targets phi2d, integration phi; an unknown method raises and leaves the target |
| Estimator.RollDecay.Bounds | rolldecayestimators/estimator.py:235-248 | the loop returns the bounds of the current parameter names |
| Estimator.RollDecay.InitialGuess | rolldecayestimators/estimator.py:250-256 | the loop returns the initial guess of the current parameter names |
| Estimator.RollDecay.SimulateWith | rolldecayestimators/estimator.py:147-166 | returns the simulation; the solver's answer is stored whenever the solver ran |
| Estimator.Solution | rolldecayestimators/estimator.py:112-120 | a missing target column fails first, then a bad bound; otherwise the solver's answer on the residual problem of the estimator holding the data, from the initial guess within the bounds |
| Estimator.RollDecay.Simulate | rolldecayestimators/estimator.py:131-145 | a simulation with omega0 and zeta as the parameters; the solver's answer is stored whenever the solver ran, otherwise the stored answer is unchanged |
| Estimator.RollDecay.Solve | rolldecayestimators/estimator.py:112-120 | the target column, then the bounds, then the solver on the residual of the estimator holding the data |
| Estimator.RollDecay.StoreParameters | rolldecayestimators/estimator.py:124-127 | the stored parameters are the trial parameters of the solution; a failing spectrum leaves the paired names stored |
| Estimator.RollDecay.Record | rolldecayestimators/estimator.py:119-129 | the solver's answer is stored before the success assertion; parameters and fitted flag follow only a passed assertion; a failing spectrum leaves the names paired with the solution stored and the estimator not newly fitted |
| Estimator.RollDecay.Fit | rolldecayestimators/estimator.py:112-129 | the frame is stored; solver errors and non-convergence leave parameters unchanged; after a passed assertion the estimator is fitted with the trial parameters of the solution when they exist, and when the spectrum fails it holds the names paired with the solution and is not newly fitted |
| Estimator.RollDecay.Predict | rolldecayestimators/estimator.py:183-190 | empty record, missing rate and missing parameters fail; otherwise the simulation from the first angle and rate with the fitted parameters; the solver's answer is stored whenever the solver ran, and nothing is stored on the failing paths |
| Estimator.NewRollDecay | rolldecayestimators/estimator.py:24-47 | fails iff the method is unknown; otherwise a fresh estimator holding the given law, solvers and settings, with assert_success true, unfitted, and no data, result, parameters or simulation result |
| Estimator.DefaultRollDecay | rolldecayestimators/estimator.py:24 | defaults: 4000 evaluations, ftol 1e-20, derivation on phi2d, omega0 regressed, no bounds or guesses; the given solvers, assert_success true, unfitted, and no data, result, parameters or simulation result |
| Variants.Functions | rolldecayestimators/direct_estimator_cubic.py:165-166 | a variant's table copies EstimatorCubic's and replaces only the acceleration |
| Variants.MergedBounds | rolldecayestimators/direct_estimator_cubic.py:62-66 | the caller's bounds win; B_1_A defaults to (0, inf); no other key is added |
| Variants.DefaultBoundUnused | rolldecayestimators/direct_estimator_cubic.py:62-68 | for names without B_1_A the merged bounds give exactly the caller's bounds |
| Variants.NewEstimatorCubic | rolldecayestimators/direct_estimator_cubic.py:60-68 | fails iff the method is unknown; otherwise the variant's acceleration, the merged bounds, omega0 regressed, the given solvers and settings, assert_success true, unfitted, and no data, result, parameters or simulation result |
| Variants.DefaultEstimatorCubic | rolldecayestimators/direct_estimator_cubic.py:60 | defaults: 100 evaluations, ftol 1e-15, integration on phi, bounds only B_1_A; the given solvers, assert_success true, unfitted, and no data, result, parameters or simulation result |
| Variants.CubicParameters | rolldecayestimators/direct_estimator_cubic.py:80-87 | binds exactly the six normalised coefficients to the given values |
| Variants.QuadraticBParameters | rolldecayestimators/direct_estimator_cubic.py:179-183 | binds exactly B_1, B_2, C_1 |
| Variants.QuadraticBandCParameters | rolldecayestimators/direct_estimator_cubic.py:226-231 | binds exactly B_1, B_2, C_1, C_3 |
| Variants.LinearParameters | rolldecayestimators/direct_estimator_cubic.py:274-277 | binds exactly B_1, C_1 |
| Variants.ParametersNest | rolldecayestimators/direct_estimator_cubic.py:226-231 | QuadraticBandC's map is QuadraticB's plus C_3; Linear's keys are a strict subset of QuadraticB's |
| Variants.SimulationAccepted | rolldecayestimators/direct_estimator_cubic.py:169-184 | a variant's map reaches the solver iff the law's arguments are its names plus the state |
| Variants.SimulateCubic | rolldecayestimators/direct_estimator_cubic.py:70-88 | for an estimator of that variant, the simulation of the Cubic law with the Cubic map; the solver's answer is stored whenever the solver ran |
| Variants.SimulateQuadraticB | rolldecayestimators/direct_estimator_cubic.py:169-184 | for an estimator of that variant, the simulation of the QuadraticB law with the QuadraticB map; the solver's answer is stored whenever the solver ran |
| Variants.SimulateQuadraticBandC | rolldecayestimators/direct_estimator_cubic.py:216-232 | for an estimator of that variant, the simulation of the QuadraticBandC law with the QuadraticBandC map; the solver's answer is stored whenever the solver ran |
| Variants.SimulateLinear | rolldecayestimators/direct_estimator_cubic.py:264-278 | for an estimator of that variant, the simulation of the Linear law with the Linear map; the solver's answer is stored whenever the solver ran |
| Variants.Shorten | rolldecayestimators/direct_estimator_cubic.py:97 | the key without its last character |
| Variants.CalculateAdditionalParameters | rolldecayestimators/direct_estimator_cubic.py:90-110 | unfitted fails; the keys are the shortened fitted names with a normalize equation, each back-solved from a fitted value with A44 |
| Variants.CubicAdditionalKeys | rolldecayestimators/direct_estimator_cubic.py:95-108 | for any fitted map whose names are among the Cubic `simulate` keys (`B_1A` … `C_5A`), the added names are among the six dimensional coefficients |
| Variants.DatabaseInputs | rolldecayestimators/direct_estimator_cubic.py:117-127 | fails iff Volume is missing; g defaults to 9.81, rho to 1000, m = Volume * rho; fitted parameters take precedence; other metadata kept |
| Variants.AssembleInputs | rolldecayestimators/direct_estimator_cubic.py:117-127 | the step-by-step assembly equals the inputs above |
| Variants.CompleteRecord | rolldecayestimators/direct_estimator_cubic.py:131-134 | the additional parameters are merged in, then omega0 is evaluated with the record's A_44 |
| Variants.ResultForDatabase | rolldecayestimators/direct_estimator_cubic.py:113-136 | missing Volume, then missing parameters, fail; otherwise the base record plus A_44, the added coefficients and omega0, with A_44 from the inputs and omega0 from the inputs with that A_44 |

## Left out

- The numerical routines `solve_ivp`, `least_squares` (soft-L1 loss, f_scale), `np.fft.rfft` and `rfftfreq`, and `np.sqrt` are parameters. Their numerics are not modelled.
- The symbolic derivation of the accelerations with sympy, and of the A44 and omega0 equations, is not part of this model. The equations module is not part of this model either. These enter as given `Law` values, and the back-solving of a normalize equation enters as `BackSolve`.
- `LowpassFilterDerivatorTransformer`, `score`, `true_and_prediction`, `__repr__` and the r2 score are outside the modelled core.
- `DirectEstimator.result_for_database`, the base class's record, is not part of this model. `ResultForDatabase` takes its result as the `base` parameter.
- Metadata and record values are modelled as reals only. Non-numeric metadata entries are not represented.
- Python set and dict iteration orders are not modelled. `ParameterNamesOf` fixes one order, and its contract states only which names appear and that each appears once. `CalculateAdditionalParameters` visits the keys in an arbitrary order.
- `check_is_fitted(self, 'is_fitted_')` always passes, because the constructor sets the attribute. The real precondition of `predict` and `calculate_additional_parameters` is that `parameters` exists, and that is what is modelled.
- Pandas index alignment is replaced by positions. A frame's time index is a sequence, and label slicing on a strictly increasing index is positional slicing.
- Floating point is not modelled: reals are exact, and NaN is not represented. Infinities appear only as `Ext` bounds and failure residuals.
- The `simulation_result` that the solver stores during least-squares trials is not tracked. `Residual` is a pure function.
- Transformers.ScaleFactorTransformer.Transform: requires a positive factor with its exact square root; a negative factor would give NaN in the source.
- Estimator.RollDecay.Fit: the least-squares solver's calls to the residual are not constrained. The contract ties the stored result to the solver's answer on the stated problem, not to a minimum.
- Estimator.RollDecay.constructor: requires a known fit method. The raising path of `__init__` is `Estimator.NewRollDecay`.
- Variants.NewEstimatorCubic: the estimator's law is taken as the variant's `functions['acceleration']`. The `calculate_acceleration` shown in `RollDecay` returns `functions[0]`, which the variants' dict does not have; the model assumes the override in `DirectEstimator` returns the `acceleration` entry, and `DirectEstimator` is not part of this model.
- Laws.LinearLawIsLinearVariant: relates the base law to the linear damping and restoring formulas only. The Linear variant's acceleration is generated by the equation module, which is not part of this model, so the model does not prove that it equals these formulas.
- A frame holds the angle and at most the rate and acceleration columns. Any other column, such as a filtered angle, cannot be represented, and `n_features_` counts only these three.
- The tests of the repository are not modelled.
