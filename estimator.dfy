/** The RollDecay estimator: a roll-decay law fitted to a measured series by
    least squares, either on the acceleration directly ("derivation") or on
    the roll angle of a simulated decay ("integration"), with an optional
    natural frequency taken from the spectrum of the signal.

    The ODE solver, the least-squares solver and the FFT are numerical
    libraries; they enter as function-valued parameters (oracles) and the
    model states what the estimator does around them. */
module Estimator {
  import opened Common
  import opened Series
  import opened Laws

  // ------------------------------------------------------------------ laws

  /** A lambdified equation: the names of its keyword arguments and its value
      for a binding of those names. */
  datatype Law = Law(args: seq<string>, eval: map<string, real> -> real)

  function ArgSet(law: Law): set<string>
  {
    set i | 0 <= i < |law.args| :: law.args[i]
  }

  function Get(m: map<string, real>, key: string): real
  {
    if key in m then m[key] else 0.0
  }

  /** The law of the base estimator: the linear roll-decay equation solved
      for the acceleration. */
  const LinearLaw: Law :=
    Law(["omega0", "zeta", "phi", "phi1d"],
        m => LinearAcceleration(Get(m, "omega0"), Get(m, "zeta"), Get(m, "phi"), Get(m, "phi1d")))

  predicate Distinct<T(==)>(s: seq<T>)
  {
    forall i, j :: 0 <= i < j < |s| ==> s[i] != s[j]
  }

  /** The parameters to regress: the law's arguments other than the state
      `phi`, `phi1d`, and other than `omega0` when that is taken from the
      spectrum instead. Each name once. */
  function ParameterNamesOf(signature: seq<string>, omegaRegression: bool): (names: seq<string>)
    ensures Distinct(names)
    ensures forall n :: n in names <==>
      n in signature && n != "phi" && n != "phi1d" && (omegaRegression || n != "omega0")
  {
    if |signature| == 0 then []
    else
      var rest := ParameterNamesOf(signature[..|signature| - 1], omegaRegression);
      var n := signature[|signature| - 1];
      assert forall m :: m in signature <==> m in signature[..|signature| - 1] || m == n;
      if n in rest || n == "phi" || n == "phi1d" || (!omegaRegression && n == "omega0") then rest
      else rest + [n]
  }

  function Min(a: nat, b: nat): nat
  {
    if a <= b then a else b
  }

  /** Pairs of names and values of equal number; a later repeated name
      replaces an earlier one, as in a dict comprehension. */
  function PairUp(names: seq<string>, xs: seq<real>): (m: map<string, real>)
    requires |names| == |xs|
    ensures forall k :: k in m <==> k in names
    ensures Distinct(names) ==> forall i :: 0 <= i < |names| ==> m[names[i]] == xs[i]
  {
    if |names| == 0 then map[]
    else
      var n := |names| - 1;
      var m := PairUp(names[..n], xs[..n]);
      assert forall k :: k in names <==> k in names[..n] || k == names[n];
      assert Distinct(names) ==> Distinct(names[..n]) && names[n] !in names[..n];
      m[names[n] := xs[n]]
  }

  /** `{key: x for key, x in zip(names, xs)}`: the pairs up to the shorter of
      the two sequences. */
  function Zip(names: seq<string>, xs: seq<real>): (m: map<string, real>)
    ensures forall k :: k in m <==> k in names[..Min(|names|, |xs|)]
    ensures Distinct(names) ==> forall i :: 0 <= i < Min(|names|, |xs|) ==> m[names[i]] == xs[i]
  {
    var n := Min(|names|, |xs|);
    assert Distinct(names) ==> Distinct(names[..n]);
    PairUp(names[..n], xs[..n])
  }

  // ------------------------------------------------------------ simulation

  /** The right-hand side handed to the ODE solver: the law and the extra
      keyword arguments passed through. */
  datatype Rhs = Rhs(law: Law, parameters: map<string, real>)

  /** Whether the law can be called with these parameters plus the state:
      the parameters do not name the state, and together with it they bind
      exactly the law's arguments. */
  predicate Accepts(law: Law, parameters: map<string, real>)
  {
    "phi" !in parameters && "phi1d" !in parameters &&
    parameters.Keys + {"phi", "phi1d"} == ArgSet(law)
  }

  /** The state derivative (phi1d, phi2d) at one instant. Naming the state in
      the parameters, or binding the wrong set of arguments, is a TypeError. */
  function RollDecayTimeStep(rhs: Rhs, t: real, phi: real, phi1d: real): (r: Result<(real, real)>)
    ensures r.Ok? <==> Accepts(rhs.law, rhs.parameters)
    ensures r.Err? ==> r.error == BadArguments
    ensures r.Ok? ==> r.value.0 == phi1d
  {
    var kwargs := rhs.parameters["phi1d" := phi1d]["phi" := phi];
    if "phi" in rhs.parameters || "phi1d" in rhs.parameters then Err(BadArguments)
    else if kwargs.Keys != ArgSet(rhs.law) then Err(BadArguments)
    else Ok((phi1d, rhs.law.eval(kwargs)))
  }

  /** The time series starting at zero: the same spacing, shifted. */
  function Shifted(t: seq<real>): (s: seq<real>)
    requires |t| > 0
    ensures |s| == |t| && s[0] == 0.0
    ensures forall i, j :: 0 <= i < |t| && 0 <= j < |t| ==> s[j] - s[i] == t[j] - t[i]
  {
    seq(|t|, i requires 0 <= i < |t| => t[i] - t[0])
  }

  /** What `solve_ivp` reports: success, and the angle and rate at the
      requested times. */
  datatype IvpResult = IvpResult(success: bool, phi: seq<real>, phi1d: seq<real>)

  /** `solve_ivp(fun, t_span, y0, t_eval)`: the right-hand side, the span
      (start, end), the initial angle and rate, and the evaluation times. */
  type Ivp = (Rhs, real, real, real, real, seq<real>) -> IvpResult

  /** The solver call of `_simulate`. An empty time vector fails at `t[0]`;
      parameters the law cannot take fail when the solver first evaluates the
      right-hand side. */
  function SolverRun(law: Law, ivp: Ivp, t: seq<real>, phi0: real, phi1d0: real,
                     parameters: map<string, real>): (r: Result<IvpResult>)
    ensures |t| == 0 ==> r == Err(EmptySeries)
    ensures |t| > 0 ==> (r.Ok? <==> Accepts(law, parameters))
    ensures r.Ok? ==> r.value == ivp(Rhs(law, parameters), 0.0, Shifted(t)[|t| - 1], phi0, phi1d0, Shifted(t))
  {
    if |t| == 0 then Err(EmptySeries)
    else
      var rhs := Rhs(law, parameters);
      if RollDecayTimeStep(rhs, 0.0, phi0, phi1d0).Err? then Err(BadArguments)
      else
        var s := Shifted(t);
        Ok(ivp(rhs, s[0], s[|s| - 1], phi0, phi1d0, s))
  }

  /** The frame `_simulate` builds from a solver run: indexed by the original
      times, with the angle and rate columns. */
  function SimulationFrame(t: seq<real>, run: IvpResult): (r: Result<Frame>)
    ensures r.Ok? <==> run.success && |run.phi| == |t| && |run.phi1d| == |t|
    ensures !run.success ==> r == Err(SimulationFailed)
    ensures r.Ok? ==> r.value.hasPhi1d && !r.value.hasPhi2d && |r.value.rows| == |t|
    ensures r.Ok? ==> Times(r.value.rows) == t && Phis(r.value.rows) == run.phi
    ensures r.Ok? ==> forall i :: 0 <= i < |t| ==> r.value.rows[i].phi1d == run.phi1d[i]
  {
    if !run.success then Err(SimulationFailed)
    else if |run.phi| != |t| || |run.phi1d| != |t| then Err(LengthMismatch)
    else Ok(Frame(seq(|t|, i requires 0 <= i < |t| => Row(t[i], run.phi[i], run.phi1d[i], 0.0)), true, false))
  }

  /** `_simulate`: the solver run turned into a frame. */
  function Simulation(law: Law, ivp: Ivp, t: seq<real>, phi0: real, phi1d0: real,
                      parameters: map<string, real>): (r: Result<Frame>)
    ensures |t| == 0 ==> r == Err(EmptySeries)
    ensures |t| > 0 && !Accepts(law, parameters) ==> r == Err(BadArguments)
    ensures r.Ok? ==> Accepts(law, parameters) && Times(r.value.rows) == t
    ensures |t| > 0 && Accepts(law, parameters) ==>
      r == SimulationFrame(t, SolverRun(law, ivp, t, phi0, phi1d0, parameters).value)
  {
    match SolverRun(law, ivp, t, phi0, phi1d0, parameters)
    case Err(e) => Err(e)
    case Ok(run) => SimulationFrame(t, run)
  }

  // -------------------------------------------------------------- spectrum

  /** What the FFT helper returns: the frequencies and the magnitudes. */
  datatype Spectrum = Spectrum(frequencies: seq<real>, magnitudes: seq<real>)

  /** The FFT helper: times and signal to spectrum. */
  type Fft = (seq<real>, seq<real>) -> Spectrum

  const Pi: real := 3.141592653589793

  /** `fft_omega0`: 2 pi times the frequency of the first largest magnitude.
      Every bin competes, the zero-frequency bin included. */
  function FftOmega0(frequencies: seq<real>, dft: seq<real>): (r: Result<real>)
    ensures |dft| == 0 ==> r == Err(EmptySeries)
    ensures 0 < |dft| <= |frequencies| ==> r.Ok?
    ensures 0 < |dft| ==> (r.Ok? <==> FirstArgMax(dft) < |frequencies|)
    ensures r.Ok? ==> exists k :: (
      0 <= k < |dft| && k < |frequencies| && r.value == 2.0 * Pi * frequencies[k] &&
      (forall j :: 0 <= j < |dft| ==> dft[j] <= dft[k]) &&
      (forall j :: 0 <= j < k ==> dft[j] < dft[k]))
  {
    if |dft| == 0 then Err(EmptySeries)
    else
      var k := FirstArgMax(dft);
      if k < |frequencies| then Ok(2.0 * Pi * frequencies[k]) else Err(IndexOutOfRange)
  }

  /** With non-negative frequencies (those of a real FFT) the picked natural
      frequency is non-negative. */
  lemma FftOmega0NonNegative(frequencies: seq<real>, dft: seq<real>)
    requires forall i :: 0 <= i < |frequencies| ==> frequencies[i] >= 0.0
    requires FftOmega0(frequencies, dft).Ok?
    ensures FftOmega0(frequencies, dft).value >= 0.0
  {
    var k := FirstArgMax(dft);
    assert frequencies[k] >= 0.0;
  }

  /** A spectrum whose mean (zero-frequency) bin is at least every other bin
      yields a natural frequency of zero. */
  lemma FftOmega0PicksZeroBin(frequencies: seq<real>, dft: seq<real>)
    requires 0 < |dft| && 0 < |frequencies| && frequencies[0] == 0.0
    requires forall j :: 0 <= j < |dft| ==> dft[j] <= dft[0]
    ensures FftOmega0(frequencies, dft) == Ok(0.0)
  {
    assert FirstArgMax(dft) == 0;
  }

  // --------------------------------------------------------------- fitting

  /** The estimator state the residual function reads. */
  datatype Config = Config(acceleration: Law, fitMethod: string, yKey: string,
                           omegaRegression: bool, X: Option<Frame>, ivp: Ivp, fft: Fft)

  function Names(cfg: Config): seq<string>
  {
    ParameterNamesOf(cfg.acceleration.args, cfg.omegaRegression)
  }

  /** The `omega0` property: the spectral natural frequency of the stored
      training frame's angle. */
  function Omega0(cfg: Config): (r: Result<real>)
    ensures cfg.X.None? ==> r == Err(MissingAttribute("X"))
    ensures cfg.X.Some? ==>
      var spectrum := cfg.fft(Times(cfg.X.value.rows), Phis(cfg.X.value.rows));
      r == FftOmega0(spectrum.frequencies, spectrum.magnitudes)
  {
    match cfg.X
    case None => Err(MissingAttribute("X"))
    case Some(x) =>
      var spectrum := cfg.fft(Times(x.rows), Phis(x.rows));
      FftOmega0(spectrum.frequencies, spectrum.magnitudes)
  }

  /** The parameter map for a trial vector: the regressed names paired with
      the vector, and `omega0` from the spectrum when it is not regressed. */
  function TrialParameters(cfg: Config, x: seq<real>): (r: Result<map<string, real>>)
    ensures cfg.omegaRegression ==> r == Ok(Zip(Names(cfg), x))
    ensures !cfg.omegaRegression ==> (r.Ok? <==> Omega0(cfg).Ok?)
    ensures !cfg.omegaRegression && r.Err? ==> r.error == Omega0(cfg).error
    ensures r.Ok? && !cfg.omegaRegression ==>
      r.value.Keys == Zip(Names(cfg), x).Keys + {"omega0"} &&
      r.value["omega0"] == Omega0(cfg).value &&
      forall n :: n in Zip(Names(cfg), x) ==> r.value[n] == Zip(Names(cfg), x)[n]
  {
    var p := Zip(Names(cfg), x);
    if cfg.omegaRegression then Ok(p)
    else match Omega0(cfg)
      case Err(e) => Err(e)
      case Ok(w) =>
        assert "omega0" !in Names(cfg);
        Ok(p["omega0" := w])
  }

  /** `estimator_acceleration`: the law evaluated row by row with the
      observed angle and rate. */
  function EstimateAcceleration(law: Law, parameters: map<string, real>, xs: Frame): (r: Result<seq<Ext>>)
    ensures !xs.hasPhi1d ==> r == Err(MissingColumn("phi1d"))
    ensures xs.hasPhi1d ==> (r.Ok? <==> parameters.Keys + {"phi", "phi1d"} == ArgSet(law))
    ensures r.Ok? ==> |r.value| == |xs.rows| && forall i :: 0 <= i < |xs.rows| ==> r.value[i].Fin?
  {
    if !xs.hasPhi1d then Err(MissingColumn("phi1d"))
    else if parameters.Keys + {"phi", "phi1d"} != ArgSet(law) then Err(BadArguments)
    else
      Ok(seq(|xs.rows|, i requires 0 <= i < |xs.rows| =>
        Fin(law.eval(parameters["phi" := xs.rows[i].phi]["phi1d" := xs.rows[i].phi1d]))))
  }

  /** For the base law the derivation estimate is the linear acceleration of
      each observed state. */
  lemma LinearEstimate(omega0: real, zeta: real, xs: Frame)
    requires xs.hasPhi1d
    ensures var r := EstimateAcceleration(LinearLaw, map["omega0" := omega0, "zeta" := zeta], xs);
      r.Ok? && forall i :: 0 <= i < |xs.rows| ==>
        r.value[i] == Fin(LinearAcceleration(omega0, zeta, xs.rows[i].phi, xs.rows[i].phi1d))
  {
    var p := map["omega0" := omega0, "zeta" := zeta];
    assert p.Keys + {"phi", "phi1d"} == ArgSet(LinearLaw) by {
      assert LinearLaw.args[0] == "omega0" && LinearLaw.args[1] == "zeta";
      assert LinearLaw.args[2] == "phi" && LinearLaw.args[3] == "phi1d";
    }
  }

  /** The base law as the right-hand side of the state equation. */
  lemma LinearTimeStep(omega0: real, zeta: real, t: real, phi: real, phi1d: real)
    ensures RollDecayTimeStep(Rhs(LinearLaw, map["omega0" := omega0, "zeta" := zeta]), t, phi, phi1d)
      == Ok((phi1d, LinearAcceleration(omega0, zeta, phi, phi1d)))
  {
    var p := map["omega0" := omega0, "zeta" := zeta];
    var kwargs := p["phi1d" := phi1d]["phi" := phi];
    assert kwargs.Keys == ArgSet(LinearLaw) by {
      assert LinearLaw.args[0] == "omega0" && LinearLaw.args[1] == "zeta";
      assert LinearLaw.args[2] == "phi" && LinearLaw.args[3] == "phi1d";
    }
  }

  function Fins(xs: seq<real>): (r: seq<Ext>)
    ensures |r| == |xs| && forall i :: 0 <= i < |xs| ==> r[i] == Fin(xs[i])
  {
    seq(|xs|, i requires 0 <= i < |xs| => Fin(xs[i]))
  }

  /** `estimator_integration`: the target column of a simulation. A failed
      simulation, for any reason, becomes +infinity at every time. */
  function EstimateIntegration(cfg: Config, t: seq<real>, phi0: real, phi1d0: real,
                               parameters: map<string, real>): (r: Result<seq<Ext>>)
    ensures cfg.yKey == "phi" || cfg.yKey == "phi1d" <==> r.Ok?
    ensures r.Err? ==> r.error == MissingColumn(cfg.yKey)
    ensures r.Ok? ==> |r.value| == |t|
    ensures r.Ok? && Simulation(cfg.acceleration, cfg.ivp, t, phi0, phi1d0, parameters).Err? ==>
      forall i :: 0 <= i < |t| ==> r.value[i] == PosInf
    ensures r.Ok? && Simulation(cfg.acceleration, cfg.ivp, t, phi0, phi1d0, parameters).Ok? ==>
      forall i :: 0 <= i < |t| ==> r.value[i].Fin?
    ensures cfg.yKey == "phi" && Simulation(cfg.acceleration, cfg.ivp, t, phi0, phi1d0, parameters).Ok? ==>
      r == Ok(Fins(Phis(Simulation(cfg.acceleration, cfg.ivp, t, phi0, phi1d0, parameters).value.rows)))
  {
    match Simulation(cfg.acceleration, cfg.ivp, t, phi0, phi1d0, parameters)
    case Err(_) =>
      if cfg.yKey == "phi" || cfg.yKey == "phi1d" then
        Ok(seq(|t|, i requires 0 <= i < |t| => PosInf))
      else Err(MissingColumn(cfg.yKey))
    case Ok(f) =>
      match Column(f, cfg.yKey)
      case Err(e) => Err(e)
      case Ok(col) => Ok(Fins(col))
  }

  /** The `estimator` of a trial vector: derivation evaluates the law on the
      observed states, integration simulates from the first angle and rest. */
  function Estimate(cfg: Config, x: seq<real>, xs: Frame): (r: Result<seq<Ext>>)
    ensures TrialParameters(cfg, x).Err? ==> r == Err(TrialParameters(cfg, x).error)
    ensures r.Ok? ==> |r.value| == |xs.rows|
    ensures TrialParameters(cfg, x).Ok? ==>
      (cfg.fitMethod != "derivation" && cfg.fitMethod != "integration" ==>
         r == Err(UnknownFitMethod(cfg.fitMethod))) &&
      (cfg.fitMethod == "integration" && |xs.rows| == 0 ==> r == Err(EmptySeries)) &&
      (cfg.fitMethod == "integration" && |xs.rows| > 0 && cfg.yKey in {"phi", "phi1d"} ==> r.Ok?)
    ensures TrialParameters(cfg, x).Ok? && cfg.fitMethod == "derivation" ==>
      r == EstimateAcceleration(cfg.acceleration, TrialParameters(cfg, x).value, xs)
    ensures TrialParameters(cfg, x).Ok? && cfg.fitMethod == "integration" && |xs.rows| > 0 ==>
      r == EstimateIntegration(cfg, Times(xs.rows), xs.rows[0].phi, 0.0, TrialParameters(cfg, x).value)
  {
    match TrialParameters(cfg, x)
    case Err(e) => Err(e)
    case Ok(p) =>
      if cfg.fitMethod == "derivation" then EstimateAcceleration(cfg.acceleration, p, xs)
      else if cfg.fitMethod == "integration" then
        if |xs.rows| == 0 then Err(EmptySeries)
        else EstimateIntegration(cfg, Times(xs.rows), xs.rows[0].phi, 0.0, p)
      else Err(UnknownFitMethod(cfg.fitMethod))
  }

  /** Integration fits start every simulation at rest: the observed rate
      column does not enter the estimate. */
  lemma IntegrationIgnoresObservedRate(cfg: Config, x: seq<real>, xs: Frame, ys: Frame)
    requires cfg.fitMethod == "integration"
    requires Times(xs.rows) == Times(ys.rows) && Phis(xs.rows) == Phis(ys.rows)
    ensures Estimate(cfg, x, xs) == Estimate(cfg, x, ys)
  {
    if |xs.rows| > 0 {
      assert xs.rows[0].phi == Phis(xs.rows)[0];
      assert ys.rows[0].phi == Phis(ys.rows)[0];
    }
  }

  /** What the least-squares solver is asked to minimise: the residual of
      `error(x, self, xs, ys)`. */
  datatype Problem = Problem(cfg: Config, xs: Frame, ys: seq<real>)

  /** `ys - estimator(x, xs)`. */
  function Residual(p: Problem, x: seq<real>): (r: Result<seq<Ext>>)
    requires |p.ys| == |p.xs.rows|
    ensures r.Err? <==> Estimate(p.cfg, x, p.xs).Err?
    ensures r.Ok? ==> |r.value| == |p.ys| && forall i :: 0 <= i < |p.ys| ==>
      (r.value[i] == Fin(0.0) <==> Estimate(p.cfg, x, p.xs).value[i] == Fin(p.ys[i]))
    ensures r.Ok? ==> forall i :: 0 <= i < |p.ys| ==>
      r.value[i] == Minus(p.ys[i], Estimate(p.cfg, x, p.xs).value[i])
  {
    match Estimate(p.cfg, x, p.xs)
    case Err(e) => Err(e)
    case Ok(est) => Ok(seq(|p.ys|, i requires 0 <= i < |p.ys| => Minus(p.ys[i], est[i])))
  }

  /** What `least_squares` reports: success and the solution vector. */
  datatype LsqResult = LsqResult(success: bool, x: seq<real>)

  /** `least_squares(fun, x0, bounds, ftol, max_nfev)`; an exception raised
      inside it is an `Err`. */
  type LeastSquares = (Problem, seq<real>, seq<Ext>, seq<Ext>, real, int) -> Result<LsqResult>

  const Unbounded: seq<Ext> := [NegInf, PosInf]

  /** The caller's bound for a parameter, or unbounded on both sides when
      the caller gave none. */
  function BoundFor(boundaries: map<string, seq<Ext>>, key: string): seq<Ext>
  {
    if key in boundaries then boundaries[key] else Unbounded
  }

  /** The `bounds` property as a value: the lower and upper bound of each
      parameter in order; the first bound that is not a pair fails. */
  function BoundsOf(boundaries: map<string, seq<Ext>>, names: seq<string>): (r: Result<(seq<Ext>, seq<Ext>)>)
    ensures r.Ok? <==> forall i :: 0 <= i < |names| ==> |BoundFor(boundaries, names[i])| == 2
    ensures r.Ok? ==> |r.value.0| == |names| && |r.value.1| == |names|
    ensures r.Ok? ==> forall i :: 0 <= i < |names| ==>
      r.value.0[i] == BoundFor(boundaries, names[i])[0] && r.value.1[i] == BoundFor(boundaries, names[i])[1]
  {
    if |names| == 0 then Ok(([], []))
    else
      var n := |names| - 1;
      match BoundsOf(boundaries, names[..n])
      case Err(e) => Err(e)
      case Ok(prev) =>
        var b := BoundFor(boundaries, names[n]);
        if |b| != 2 then Err(BoundNotPair(names[n]))
        else Ok((prev.0 + [b[0]], prev.1 + [b[1]]))
  }

  /** Once a prefix of the names fails, the whole list fails the same way. */
  lemma {:induction false} BoundsOfKeepsFailure(boundaries: map<string, seq<Ext>>, names: seq<string>, i: nat)
    requires i <= |names| && BoundsOf(boundaries, names[..i]).Err?
    ensures BoundsOf(boundaries, names) == BoundsOf(boundaries, names[..i])
    decreases |names| - i
  {
    if i == |names| {
      assert names[..i] == names;
    } else {
      assert names[..i + 1][..i] == names[..i];
      BoundsOfKeepsFailure(boundaries, names, i + 1);
    }
  }

  /** The failure names the first parameter whose bound is not a pair. */
  lemma BoundsOfFirstBad(boundaries: map<string, seq<Ext>>, names: seq<string>, k: nat)
    requires k < |names| && |BoundFor(boundaries, names[k])| != 2
    requires forall i :: 0 <= i < k ==> |BoundFor(boundaries, names[i])| == 2
    ensures BoundsOf(boundaries, names) == Err(BoundNotPair(names[k]))
  {
    assert names[..k + 1][..k] == names[..k];
    BoundsOfKeepsFailure(boundaries, names, k + 1);
  }

  /** The caller's starting value for a parameter, or 0.5 when the caller
      gave none. */
  function GuessFor(p0: map<string, real>, key: string): real
  {
    if key in p0 then p0[key] else 0.5
  }

  /** The trial vector a fit starts from. */
  function InitialGuessOf(p0: map<string, real>, names: seq<string>): (g: seq<real>)
    ensures |g| == |names|
    ensures forall i :: 0 <= i < |names| && names[i] in p0 ==> g[i] == p0[names[i]]
    ensures forall i :: 0 <= i < |names| && names[i] !in p0 ==> g[i] == 0.5
  {
    seq(|names|, i requires 0 <= i < |names| => GuessFor(p0, names[i]))
  }

  /** The least-squares answer a fit on `data` obtains before the success
      assertion: the target column, then the bounds, then the solver on the
      residual of the estimator that has stored `data`. */
  function Solution(cfg: Config, leastSquares: LeastSquares, boundaries: map<string, seq<Ext>>,
                    p0: map<string, real>, ftol: real, maxfev: int, data: Frame): (r: Result<LsqResult>)
    ensures Column(data, cfg.yKey).Err? ==> r == Err(MissingColumn(cfg.yKey))
    ensures Column(data, cfg.yKey).Ok? && BoundsOf(boundaries, Names(cfg)).Err? ==>
      r == Err(BoundsOf(boundaries, Names(cfg)).error)
    ensures Column(data, cfg.yKey).Ok? && BoundsOf(boundaries, Names(cfg)).Ok? ==>
      var b := BoundsOf(boundaries, Names(cfg)).value;
      r == leastSquares(Problem(cfg.(X := Some(data)), data, Column(data, cfg.yKey).value),
                        InitialGuessOf(p0, Names(cfg)), b.0, b.1, ftol, maxfev)
  {
    match Column(data, cfg.yKey)
    case Err(e) => Err(e)
    case Ok(ys) =>
      match BoundsOf(boundaries, Names(cfg))
      case Err(e) => Err(e)
      case Ok(b) =>
        leastSquares(Problem(cfg.(X := Some(data)), data, ys), InitialGuessOf(p0, Names(cfg)),
                     b.0, b.1, ftol, maxfev)
  }

  // ------------------------------------------------------------- estimator

  /** A fitted (or fittable) roll-decay estimator. */
  class RollDecay {
    const acceleration: Law
    const ivp: Ivp
    const fft: Fft
    const leastSquares: LeastSquares
    var maxfev: int
    var ftol: real
    var boundaries: map<string, seq<Ext>>
    var p0: map<string, real>
    var fitMethod: string
    var yKey: string
    var omegaRegression: bool
    var assertSuccess: bool
    var X: Option<Frame>
    var result: Option<LsqResult>
    var parameters: Option<map<string, real>>
    var isFitted: bool
    var simulationResult: Option<IvpResult>

    /** A fresh, unfitted estimator; the target column follows the method. */
    constructor (acceleration: Law, ivp: Ivp, fft: Fft, leastSquares: LeastSquares,
                 maxfev: int, boundaries: map<string, seq<Ext>>, ftol: real,
                 p0: map<string, real>, fitMethod: string, omegaRegression: bool)
      requires fitMethod == "derivation" || fitMethod == "integration"
      ensures this.acceleration == acceleration && this.ivp == ivp && this.fft == fft
      ensures this.leastSquares == leastSquares
      ensures this.maxfev == maxfev && this.boundaries == boundaries && this.ftol == ftol
      ensures this.p0 == p0 && this.fitMethod == fitMethod && this.omegaRegression == omegaRegression
      ensures yKey == (if fitMethod == "derivation" then "phi2d" else "phi")
      ensures assertSuccess && !isFitted
      ensures X.None? && result.None? && parameters.None? && simulationResult.None?
    {
      this.acceleration := acceleration;
      this.ivp := ivp;
      this.fft := fft;
      this.leastSquares := leastSquares;
      this.maxfev := maxfev;
      this.boundaries := boundaries;
      this.ftol := ftol;
      this.p0 := p0;
      this.fitMethod := fitMethod;
      this.yKey := if fitMethod == "derivation" then "phi2d" else "phi";
      this.omegaRegression := omegaRegression;
      this.assertSuccess := true;
      this.X := None;
      this.result := None;
      this.parameters := None;
      this.isFitted := false;
      this.simulationResult := None;
    }

    /** The state the residual function sees. */
    function Snapshot(): Config
      reads this`fitMethod, this`yKey, this`omegaRegression, this`X
    {
      Config(acceleration, fitMethod, yKey, omegaRegression, X, ivp, fft)
    }

    function ParameterNames(): seq<string>
      reads this`omegaRegression
    {
      ParameterNamesOf(acceleration.args, omegaRegression)
    }

    /** `set_fit_method`: the method is stored even when it is unknown, and
        only a known method moves the target column. */
    method SetFitMethod(fitMethod: string) returns (r: Outcome)
      modifies this`fitMethod, this`yKey
      ensures this.fitMethod == fitMethod
      ensures fitMethod == "derivation" ==> r == Pass && yKey == "phi2d"
      ensures fitMethod == "integration" ==> r == Pass && yKey == "phi"
      ensures fitMethod != "derivation" && fitMethod != "integration" ==>
        r == Fail(UnknownFitMethod(fitMethod)) && yKey == old(yKey)
    {
      this.fitMethod := fitMethod;
      if fitMethod == "derivation" {
        yKey := "phi2d";
        r := Pass;
      } else if fitMethod == "integration" {
        yKey := "phi";
        r := Pass;
      } else {
        r := Fail(UnknownFitMethod(fitMethod));
      }
    }

    /** The `bounds` property: one pass over the parameter names. */
    method Bounds() returns (r: Result<(seq<Ext>, seq<Ext>)>)
      ensures r == BoundsOf(boundaries, ParameterNames())
    {
      var names := ParameterNames();
      var minimums: seq<Ext> := [];
      var maximums: seq<Ext> := [];
      var i := 0;
      while i < |names|
        invariant 0 <= i <= |names|
        invariant BoundsOf(boundaries, names[..i]) == Ok((minimums, maximums))
      {
        var b := BoundFor(boundaries, names[i]);
        assert names[..i + 1][..i] == names[..i];
        if |b| != 2 {
          BoundsOfKeepsFailure(boundaries, names, i + 1);
          return Err(BoundNotPair(names[i]));
        }
        minimums := minimums + [b[0]];
        maximums := maximums + [b[1]];
        i := i + 1;
      }
      assert names[..i] == names;
      r := Ok((minimums, maximums));
    }

    /** The `initial_guess` property: one pass over the parameter names. */
    method InitialGuess() returns (g: seq<real>)
      ensures g == InitialGuessOf(p0, ParameterNames())
    {
      var names := ParameterNames();
      g := [];
      var i := 0;
      while i < |names|
        invariant 0 <= i <= |names|
        invariant g == InitialGuessOf(p0, names[..i])
      {
        g := g + [GuessFor(p0, names[i])];
        i := i + 1;
      }
      assert names[..i] == names;
    }

    /** `_simulate`: the solver's answer is kept whenever the solver ran,
        also when it reported failure. */
    method SimulateWith(t: seq<real>, phi0: real, phi1d0: real, params: map<string, real>)
      returns (r: Result<Frame>)
      modifies this`simulationResult
      ensures r == Simulation(acceleration, ivp, t, phi0, phi1d0, params)
      ensures SolverRun(acceleration, ivp, t, phi0, phi1d0, params).Ok? ==>
        simulationResult == Some(SolverRun(acceleration, ivp, t, phi0, phi1d0, params).value)
      ensures SolverRun(acceleration, ivp, t, phi0, phi1d0, params).Err? ==>
        simulationResult == old(simulationResult)
    {
      var run := SolverRun(acceleration, ivp, t, phi0, phi1d0, params);
      if run.Err? {
        return Err(run.error);
      }
      simulationResult := Some(run.value);
      r := SimulationFrame(t, run.value);
    }

    /** `simulate`: a decay with the given natural frequency and damping. */
    method Simulate(t: seq<real>, phi0: real, phi1d0: real, omega0: real, zeta: real)
      returns (r: Result<Frame>)
      modifies this`simulationResult
      ensures r == Simulation(acceleration, ivp, t, phi0, phi1d0, map["omega0" := omega0, "zeta" := zeta])
      ensures var run := SolverRun(acceleration, ivp, t, phi0, phi1d0, map["omega0" := omega0, "zeta" := zeta]);
        simulationResult == if run.Ok? then Some(run.value) else old(simulationResult)
    {
      r := SimulateWith(t, phi0, phi1d0, map["omega0" := omega0, "zeta" := zeta]);
    }

    /** The target column, the bounds and the initial guess of a fit on
        `data`, handed to the least-squares solver. */
    method Solve(data: Frame) returns (res: Result<LsqResult>)
      ensures res == Solution(Config(acceleration, fitMethod, yKey, omegaRegression, X, ivp, fft),
                              leastSquares, boundaries, p0, ftol, maxfev, data)
    {
      var ys := Column(data, yKey);
      if ys.Err? {
        return Err(ys.error);
      }
      var x0 := InitialGuess();
      var b := Bounds();
      if b.Err? {
        return Err(b.error);
      }
      res := leastSquares(Problem(Snapshot().(X := Some(data)), data, ys.value), x0,
                          b.value.0, b.value.1, ftol, maxfev);
    }

    /** The parameter assignment at the end of `fit`: the solution paired
        with the names, then `omega0` from the spectrum when it is not
        regressed. A failing spectrum leaves the paired names stored. */
    method StoreParameters(x: seq<real>) returns (r: Outcome)
      modifies this`parameters
      ensures var trial := TrialParameters(Config(acceleration, fitMethod, yKey, omegaRegression, X, ivp, fft), x);
        (trial.Ok? ==> r == Pass && parameters == Some(trial.value)) &&
        (trial.Err? ==> r == Fail(trial.error) && parameters == Some(Zip(ParameterNames(), x)))
    {
      var names := ParameterNames();
      var zipped := Zip(names, x);
      parameters := Some(zipped);
      if !omegaRegression {
        var w := Omega0(Snapshot());
        if w.Err? {
          return Fail(w.error);
        }
        parameters := Some(zipped["omega0" := w.value]);
      }
      r := Pass;
    }

    /** What `fit` does with the solver's answer: it is stored before the
        success assertion, and the parameters follow from its solution. */
    method Record(res: Result<LsqResult>) returns (r: Outcome)
      modifies this`result, this`parameters, this`isFitted
      ensures res.Err? ==>
        r == Fail(res.error) && result == old(result) && parameters == old(parameters) &&
        isFitted == old(isFitted)
      ensures res.Ok? ==> result == Some(res.value)
      ensures res.Ok? && assertSuccess && !res.value.success ==>
        r == Fail(NotConverged) && parameters == old(parameters) && isFitted == old(isFitted)
      ensures res.Ok? && (res.value.success || !assertSuccess) ==>
        var trial := TrialParameters(Config(acceleration, fitMethod, yKey, omegaRegression, X, ivp, fft), res.value.x);
        (r.Pass? <==> trial.Ok?) && (r.Pass? ==> parameters == Some(trial.value) && isFitted) &&
        (r.Fail? ==> parameters == Some(Zip(ParameterNames(), res.value.x)) && isFitted == old(isFitted))
    {
      if res.Err? {
        return Fail(res.error);
      }
      result := Some(res.value);
      if assertSuccess && !res.value.success {
        return Fail(NotConverged);
      }
      r := StoreParameters(res.value.x);
      if r.Pass? {
        isFitted := true;
      }
    }

    /** `fit`: the frame is stored first, then the solver's answer is
        recorded. */
    method Fit(data: Frame) returns (r: Outcome)
      modifies this`X, this`result, this`parameters, this`isFitted
      ensures X == Some(data)
      ensures var cfg := Config(acceleration, fitMethod, yKey, omegaRegression, Some(data), ivp, fft);
        var solution := Solution(cfg, leastSquares, boundaries, p0, ftol, maxfev, data);
        (solution.Err? ==>
           r == Fail(solution.error) && result == old(result) &&
           parameters == old(parameters) && isFitted == old(isFitted)) &&
        (solution.Ok? ==> result == Some(solution.value)) &&
        (solution.Ok? && assertSuccess && !solution.value.success ==>
           r == Fail(NotConverged) && parameters == old(parameters) && isFitted == old(isFitted)) &&
        (solution.Ok? && (solution.value.success || !assertSuccess) ==>
           (r.Pass? <==> TrialParameters(cfg, solution.value.x).Ok?) &&
           (r.Pass? ==> parameters == Some(TrialParameters(cfg, solution.value.x).value) && isFitted) &&
           (r.Fail? ==> parameters == Some(Zip(Names(cfg), solution.value.x)) && isFitted == old(isFitted)))
    {
      X := Some(data);
      var res := Solve(data);
      r := Record(res);
    }

    /** `predict`: a simulation from the first observed angle and rate with
        the fitted parameters. */
    method Predict(data: Frame) returns (r: Result<Frame>)
      modifies this`simulationResult
      ensures |data.rows| == 0 ==> r == Err(EmptySeries)
      ensures |data.rows| > 0 && !data.hasPhi1d ==> r == Err(MissingColumn("phi1d"))
      ensures |data.rows| > 0 && data.hasPhi1d && parameters.None? ==>
        r == Err(MissingAttribute("parameters"))
      ensures |data.rows| > 0 && data.hasPhi1d && parameters.Some? ==>
        r == Simulation(acceleration, ivp, Times(data.rows), data.rows[0].phi, data.rows[0].phi1d,
                        parameters.value)
      ensures |data.rows| == 0 || !data.hasPhi1d || parameters.None? ==>
        simulationResult == old(simulationResult)
      ensures |data.rows| > 0 && data.hasPhi1d && parameters.Some? ==>
        var run := SolverRun(acceleration, ivp, Times(data.rows), data.rows[0].phi, data.rows[0].phi1d,
                             parameters.value);
        simulationResult == if run.Ok? then Some(run.value) else old(simulationResult)
    {
      if |data.rows| == 0 {
        return Err(EmptySeries);
      }
      if !data.hasPhi1d {
        return Err(MissingColumn("phi1d"));
      }
      if parameters.None? {
        return Err(MissingAttribute("parameters"));
      }
      r := SimulateWith(Times(data.rows), data.rows[0].phi, data.rows[0].phi1d, parameters.value);
    }
  }

  /** `RollDecay(...)`: an unknown fit method raises from the constructor. */
  method NewRollDecay(acceleration: Law, ivp: Ivp, fft: Fft, leastSquares: LeastSquares,
                      maxfev: int, boundaries: map<string, seq<Ext>>, ftol: real,
                      p0: map<string, real>, fitMethod: string, omegaRegression: bool)
    returns (r: Result<RollDecay>)
    ensures r.Err? <==> fitMethod != "derivation" && fitMethod != "integration"
    ensures r.Err? ==> r.error == UnknownFitMethod(fitMethod)
    ensures r.Ok? ==> (
      fresh(r.value) && r.value.acceleration == acceleration &&
      r.value.ivp == ivp && r.value.fft == fft && r.value.leastSquares == leastSquares &&
      r.value.fitMethod == fitMethod && r.value.omegaRegression == omegaRegression &&
      r.value.maxfev == maxfev && r.value.ftol == ftol && r.value.boundaries == boundaries &&
      r.value.p0 == p0 && r.value.assertSuccess && !r.value.isFitted &&
      r.value.X.None? && r.value.result.None? && r.value.parameters.None? &&
      r.value.simulationResult.None? &&
      r.value.yKey == (if fitMethod == "derivation" then "phi2d" else "phi"))
  {
    if fitMethod != "derivation" && fitMethod != "integration" {
      return Err(UnknownFitMethod(fitMethod));
    }
    var e := new RollDecay(acceleration, ivp, fft, leastSquares, maxfev, boundaries, ftol,
                           p0, fitMethod, omegaRegression);
    r := Ok(e);
  }

  /** The base estimator with its default settings. */
  method DefaultRollDecay(ivp: Ivp, fft: Fft, leastSquares: LeastSquares) returns (e: RollDecay)
    ensures fresh(e) && e.acceleration == LinearLaw
    ensures e.maxfev == 4000 && e.ftol == 0.00000000000000000001
    ensures e.fitMethod == "derivation" && e.yKey == "phi2d" && e.omegaRegression
    ensures e.boundaries == map[] && e.p0 == map[] && !e.isFitted
    ensures e.ivp == ivp && e.fft == fft && e.leastSquares == leastSquares && e.assertSuccess
    ensures e.X.None? && e.result.None? && e.parameters.None? && e.simulationResult.None?
  {
    e := new RollDecay(LinearLaw, ivp, fft, leastSquares, 4000, map[], 0.00000000000000000001,
                       map[], "derivation", true);
  }
}
