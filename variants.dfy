/** The EstimatorCubic family: four roll-decay estimators that differ only in
    their damping and restoring laws (Cubic, QuadraticB, QuadraticBandC,
    Linear), their constructor defaults, the parameter maps their `simulate`
    builds, and the record they assemble for a results database.

    The acceleration, total roll inertia (A44, including added mass) and
    natural-frequency equations are generated symbolically from an equation
    module that is not part of this model; they enter as given `Law` values. */
module Variants {
  import opened Common
  import opened Series
  import opened Estimator

  datatype Variant = Cubic | QuadraticB | QuadraticBandC | Linear

  /** The generated equations: one acceleration law per variant, and the
      shared A44 and omega0 laws. */
  datatype EquationLibrary = EquationLibrary(
    cubic: Law, quadraticB: Law, quadraticBandC: Law, linear: Law, a44: Law, omega0: Law)

  function AccelerationOf(lib: EquationLibrary, v: Variant): Law
  {
    match v
    case Cubic => lib.cubic
    case QuadraticB => lib.quadraticB
    case QuadraticBandC => lib.quadraticBandC
    case Linear => lib.linear
  }

  /** The class-level `functions` table of EstimatorCubic. */
  function CubicTable(lib: EquationLibrary): map<string, Law>
  {
    map["acceleration" := lib.cubic, "A44" := lib.a44, "omega0" := lib.omega0]
  }

  /** A variant's `functions` table: a copy of EstimatorCubic's with its own
      acceleration. */
  function Functions(lib: EquationLibrary, v: Variant): (table: map<string, Law>)
    ensures table.Keys == CubicTable(lib).Keys
    ensures table["acceleration"] == AccelerationOf(lib, v)
    ensures table["A44"] == lib.a44 && table["omega0"] == lib.omega0
    ensures forall k :: k in table && k != "acceleration" ==> table[k] == CubicTable(lib)[k]
  {
    if v == Cubic then CubicTable(lib)
    else CubicTable(lib)["acceleration" := AccelerationOf(lib, v)]
  }

  // ------------------------------------------------------------ constructor

  /** The bound the constructor adds for `B_1_A`: non-negative. */
  const DefaultB1Bound: seq<Ext> := [Fin(0.0), PosInf]

  /** The constructor's bounds: `{'B_1_A': (0, inf)}` updated with the
      caller's bounds, so a caller's `B_1_A` wins and every other caller key
      is kept as given. */
  function MergedBounds(bounds: map<string, seq<Ext>>): (merged: map<string, seq<Ext>>)
    ensures merged.Keys == bounds.Keys + {"B_1_A"}
    ensures merged["B_1_A"] == (if "B_1_A" in bounds then bounds["B_1_A"] else DefaultB1Bound)
    ensures forall k :: k in bounds ==> merged[k] == bounds[k]
  {
    map["B_1_A" := DefaultB1Bound] + bounds
  }

  /** Where `BoundFor` agrees on every name, the bounds agree. */
  lemma {:induction false} BoundsOfAgree(a: map<string, seq<Ext>>, b: map<string, seq<Ext>>, names: seq<string>)
    requires forall i :: 0 <= i < |names| ==> BoundFor(a, names[i]) == BoundFor(b, names[i])
    ensures BoundsOf(a, names) == BoundsOf(b, names)
  {
    if |names| > 0 {
      BoundsOfAgree(a, b, names[..|names| - 1]);
    }
  }

  /** The default bound is keyed `B_1_A` while the fitted names are those of
      the acceleration law: for a law without that argument the merged bounds
      are exactly the caller's. */
  lemma DefaultBoundUnused(bounds: map<string, seq<Ext>>, names: seq<string>)
    requires "B_1_A" !in names
    ensures BoundsOf(MergedBounds(bounds), names) == BoundsOf(bounds, names)
  {
    forall i | 0 <= i < |names|
      ensures BoundFor(MergedBounds(bounds), names[i]) == BoundFor(bounds, names[i])
    {
      assert names[i] != "B_1_A";
    }
    BoundsOfAgree(MergedBounds(bounds), bounds, names);
  }

  /** `EstimatorCubic(...)` and its subclasses: the variant's acceleration,
      the merged bounds, and the natural frequency always regressed. */
  method NewEstimatorCubic(lib: EquationLibrary, v: Variant, ivp: Ivp, fft: Fft, leastSquares: LeastSquares,
                           maxfev: int, bounds: map<string, seq<Ext>>, ftol: real,
                           p0: map<string, real>, fitMethod: string)
    returns (r: Result<RollDecay>)
    ensures r.Err? <==> fitMethod != "derivation" && fitMethod != "integration"
    ensures r.Err? ==> r.error == UnknownFitMethod(fitMethod)
    ensures r.Ok? ==> fresh(r.value)
    ensures r.Ok? ==> r.value.acceleration == AccelerationOf(lib, v) && r.value.omegaRegression
    ensures r.Ok? ==> r.value.boundaries == MergedBounds(bounds) && r.value.p0 == p0
    ensures r.Ok? ==> r.value.maxfev == maxfev && r.value.ftol == ftol && r.value.fitMethod == fitMethod
    ensures r.Ok? ==> r.value.ivp == ivp && r.value.fft == fft && r.value.leastSquares == leastSquares
    ensures r.Ok? ==> r.value.assertSuccess && !r.value.isFitted && r.value.parameters.None?
    ensures r.Ok? ==> r.value.X.None? && r.value.result.None? && r.value.simulationResult.None?
    ensures r.Ok? ==> r.value.yKey == (if fitMethod == "derivation" then "phi2d" else "phi")
  {
    var merged := map["B_1_A" := DefaultB1Bound];
    merged := merged + bounds;
    assert merged == MergedBounds(bounds);
    r := NewRollDecay(Functions(lib, v)["acceleration"], ivp, fft, leastSquares, maxfev, merged, ftol,
                      p0, fitMethod, true);
  }

  /** The constructor with its default arguments: 100 evaluations, a
      tolerance of 1e-15, no caller bounds or guesses, integration. */
  method DefaultEstimatorCubic(lib: EquationLibrary, v: Variant, ivp: Ivp, fft: Fft, leastSquares: LeastSquares)
    returns (e: RollDecay)
    ensures fresh(e) && e.acceleration == AccelerationOf(lib, v)
    ensures e.maxfev == 100 && e.ftol == 0.000000000000001 && e.p0 == map[]
    ensures e.fitMethod == "integration" && e.yKey == "phi" && e.omegaRegression
    ensures e.boundaries == map["B_1_A" := DefaultB1Bound]
    ensures e.ivp == ivp && e.fft == fft && e.leastSquares == leastSquares && e.assertSuccess
    ensures !e.isFitted && e.X.None? && e.result.None? && e.parameters.None? && e.simulationResult.None?
  {
    var r := NewEstimatorCubic(lib, v, ivp, fft, leastSquares, 100, map[], 0.000000000000001, map[],
                               "integration");
    e := r.value;
    assert MergedBounds(map[]) == map["B_1_A" := DefaultB1Bound];
  }

  // ---------------------------------------------------- simulate parameters

  /** The names each variant's `simulate` binds, in its signature order. */
  function Coefficients(v: Variant): seq<string>
  {
    match v
    case Cubic => ["B_1A", "B_2A", "B_3A", "C_1A", "C_3A", "C_5A"]
    case QuadraticB => ["B_1", "B_2", "C_1"]
    case QuadraticBandC => ["B_1", "B_2", "C_1", "C_3"]
    case Linear => ["B_1", "C_1"]
  }

  /** The map `EstimatorCubic.simulate` passes on. */
  function CubicParameters(b1A: real, b2A: real, b3A: real, c1A: real, c3A: real, c5A: real)
    : (m: map<string, real>)
    ensures forall k :: k in m <==> k in Coefficients(Cubic)
    ensures m["B_1A"] == b1A && m["B_2A"] == b2A && m["B_3A"] == b3A
    ensures m["C_1A"] == c1A && m["C_3A"] == c3A && m["C_5A"] == c5A
  {
    map["B_1A" := b1A, "B_2A" := b2A, "B_3A" := b3A, "C_1A" := c1A, "C_3A" := c3A, "C_5A" := c5A]
  }

  /** The map `EstimatorQuadraticB.simulate` passes on. */
  function QuadraticBParameters(b1: real, b2: real, c1: real): (m: map<string, real>)
    ensures forall k :: k in m <==> k in Coefficients(QuadraticB)
    ensures m["B_1"] == b1 && m["B_2"] == b2 && m["C_1"] == c1
  {
    map["B_1" := b1, "B_2" := b2, "C_1" := c1]
  }

  /** The map `EstimatorQuadraticBandC.simulate` passes on. */
  function QuadraticBandCParameters(b1: real, b2: real, c1: real, c3: real): (m: map<string, real>)
    ensures forall k :: k in m <==> k in Coefficients(QuadraticBandC)
    ensures m["B_1"] == b1 && m["B_2"] == b2 && m["C_1"] == c1 && m["C_3"] == c3
  {
    map["B_1" := b1, "B_2" := b2, "C_1" := c1, "C_3" := c3]
  }

  /** The map `EstimatorLinear.simulate` passes on. */
  function LinearParameters(b1: real, c1: real): (m: map<string, real>)
    ensures forall k :: k in m <==> k in Coefficients(Linear)
    ensures m["B_1"] == b1 && m["C_1"] == c1
  {
    map["B_1" := b1, "C_1" := c1]
  }

  /** The maps nest like the laws: QuadraticBandC adds `C_3` to QuadraticB. */
  lemma ParametersNest(b1: real, b2: real, c1: real, c3: real)
    ensures QuadraticBandCParameters(b1, b2, c1, c3) == QuadraticBParameters(b1, b2, c1)["C_3" := c3]
    ensures LinearParameters(b1, c1).Keys < QuadraticBParameters(b1, b2, c1).Keys
  {
    assert "B_2" in QuadraticBParameters(b1, b2, c1);
  }

  /** A simulation with a variant's map reaches the solver exactly when the
      law's arguments are those names plus the state. */
  lemma SimulationAccepted(law: Law, v: Variant, m: map<string, real>)
    requires forall k :: k in m <==> k in Coefficients(v)
    ensures Accepts(law, m) <==> ArgSet(law) == (set i | 0 <= i < |Coefficients(v)| :: Coefficients(v)[i]) + {"phi", "phi1d"}
  {
    assert "phi" !in Coefficients(v) && "phi1d" !in Coefficients(v);
    assert m.Keys == set i | 0 <= i < |Coefficients(v)| :: Coefficients(v)[i];
  }

  /** `EstimatorCubic.simulate`. */
  method SimulateCubic(lib: EquationLibrary, e: RollDecay, t: seq<real>, phi0: real, phi1d0: real,
                       b1A: real, b2A: real, b3A: real, c1A: real, c3A: real, c5A: real)
    returns (r: Result<Frame>)
    requires e.acceleration == AccelerationOf(lib, Cubic)
    modifies e`simulationResult
    ensures r == Simulation(AccelerationOf(lib, Cubic), e.ivp, t, phi0, phi1d0, CubicParameters(b1A, b2A, b3A, c1A, c3A, c5A))
    ensures var run := SolverRun(e.acceleration, e.ivp, t, phi0, phi1d0, CubicParameters(b1A, b2A, b3A, c1A, c3A, c5A));
      e.simulationResult == if run.Ok? then Some(run.value) else old(e.simulationResult)
  {
    r := e.SimulateWith(t, phi0, phi1d0, CubicParameters(b1A, b2A, b3A, c1A, c3A, c5A));
  }

  /** `EstimatorQuadraticB.simulate`. */
  method SimulateQuadraticB(lib: EquationLibrary, e: RollDecay, t: seq<real>, phi0: real, phi1d0: real, b1: real, b2: real, c1: real)
    returns (r: Result<Frame>)
    requires e.acceleration == AccelerationOf(lib, QuadraticB)
    modifies e`simulationResult
    ensures r == Simulation(AccelerationOf(lib, QuadraticB), e.ivp, t, phi0, phi1d0, QuadraticBParameters(b1, b2, c1))
    ensures var run := SolverRun(e.acceleration, e.ivp, t, phi0, phi1d0, QuadraticBParameters(b1, b2, c1));
      e.simulationResult == if run.Ok? then Some(run.value) else old(e.simulationResult)
  {
    r := e.SimulateWith(t, phi0, phi1d0, QuadraticBParameters(b1, b2, c1));
  }

  /** `EstimatorQuadraticBandC.simulate`. */
  method SimulateQuadraticBandC(lib: EquationLibrary, e: RollDecay, t: seq<real>, phi0: real, phi1d0: real,
                                b1: real, b2: real, c1: real, c3: real)
    returns (r: Result<Frame>)
    requires e.acceleration == AccelerationOf(lib, QuadraticBandC)
    modifies e`simulationResult
    ensures r == Simulation(AccelerationOf(lib, QuadraticBandC), e.ivp, t, phi0, phi1d0, QuadraticBandCParameters(b1, b2, c1, c3))
    ensures var run := SolverRun(e.acceleration, e.ivp, t, phi0, phi1d0, QuadraticBandCParameters(b1, b2, c1, c3));
      e.simulationResult == if run.Ok? then Some(run.value) else old(e.simulationResult)
  {
    r := e.SimulateWith(t, phi0, phi1d0, QuadraticBandCParameters(b1, b2, c1, c3));
  }

  /** `EstimatorLinear.simulate`. */
  method SimulateLinear(lib: EquationLibrary, e: RollDecay, t: seq<real>, phi0: real, phi1d0: real, b1: real, c1: real)
    returns (r: Result<Frame>)
    requires e.acceleration == AccelerationOf(lib, Linear)
    modifies e`simulationResult
    ensures r == Simulation(AccelerationOf(lib, Linear), e.ivp, t, phi0, phi1d0, LinearParameters(b1, c1))
    ensures var run := SolverRun(e.acceleration, e.ivp, t, phi0, phi1d0, LinearParameters(b1, c1));
      e.simulationResult == if run.Ok? then Some(run.value) else old(e.simulationResult)
  {
    r := e.SimulateWith(t, phi0, phi1d0, LinearParameters(b1, c1));
  }

  // ------------------------------------------------- additional parameters

  /** `key[0:-1]`: the name without its last character. */
  function Shorten(key: string): (s: string)
    ensures |key| > 0 ==> |s| == |key| - 1 && s + [key[|key| - 1]] == key
    ensures |key| == 0 ==> s == ""
  {
    if |key| == 0 then "" else key[..|key| - 1]
  }

  /** The normalize equation solved for a dimensional coefficient: new name,
      fitted name, fitted value and A44 to the dimensional value. */
  type BackSolve = (string, string, real, real) -> real

  /** The keys `calculate_additional_parameters` emits for a fit. */
  function AdditionalKeys(parameters: map<string, real>, normalized: set<string>): set<string>
  {
    set k | k in parameters && Shorten(k) in normalized :: Shorten(k)
  }

  /** `calculate_additional_parameters`: one entry per fitted name whose
      shortened name has a normalize equation, keyed by the shortened name;
      when two names shorten alike, one of them provides the value. */
  method CalculateAdditionalParameters(parameters: Option<map<string, real>>, normalized: set<string>,
                                       backSolve: BackSolve, a44: real)
    returns (r: Result<map<string, real>>)
    ensures parameters.None? <==> r.Err?
    ensures r.Err? ==> r.error == MissingAttribute("parameters")
    ensures r.Ok? ==> r.value.Keys == AdditionalKeys(parameters.value, normalized)
    ensures r.Ok? ==> forall n :: n in r.value ==>
      exists k :: k in parameters.value && Shorten(k) == n && r.value[n] == backSolve(n, k, parameters.value[k], a44)
  {
    if parameters.None? {
      return Err(MissingAttribute("parameters"));
    }
    var p := parameters.value;
    var additional: map<string, real> := map[];
    var todo := p.Keys;
    while todo != {}
      invariant todo <= p.Keys
      invariant additional.Keys == AdditionalKeys(map k | k in p.Keys - todo :: p[k], normalized)
      invariant forall n :: n in additional ==>
        exists k :: k in p && Shorten(k) == n && additional[n] == backSolve(n, k, p[k], a44)
      decreases todo
    {
      var key :| key in todo;
      var newKey := Shorten(key);
      ghost var done := map k | k in p.Keys - todo :: p[k];
      ghost var done' := map k | k in p.Keys - (todo - {key}) :: p[k];
      assert done'.Keys == done.Keys + {key};
      if newKey in normalized {
        additional := additional[newKey := backSolve(newKey, key, p[key], a44)];
      }
      todo := todo - {key};
    }
    assert (map k | k in p.Keys - {} :: p[k]) == p;
    r := Ok(additional);
  }

  /** When every fitted name is one of the Cubic coefficients (the six
      normalised names, each ending in `A`), the added names are among the
      six dimensional coefficients. */
  lemma CubicAdditionalKeys(parameters: map<string, real>, normalized: set<string>)
    requires forall k :: k in parameters ==> k in Coefficients(Cubic)
    ensures AdditionalKeys(parameters, normalized) <= {"B_1", "B_2", "B_3", "C_1", "C_3", "C_5"}
  {
    assert Shorten("B_1A") == "B_1" && Shorten("B_2A") == "B_2" && Shorten("B_3A") == "B_3";
    assert Shorten("C_1A") == "C_1" && Shorten("C_3A") == "C_3" && Shorten("C_5A") == "C_5";
    forall k | k in parameters
      ensures Shorten(k) in {"B_1", "B_2", "B_3", "C_1", "C_3", "C_5"}
    {
      assert k in Coefficients(Cubic);
    }
  }

  // ---------------------------------------------------- database record

  /** The inputs of the A44 and omega0 equations: the metadata with `g` and
      `rho` defaulted, the mass from the displaced volume, and the fitted
      parameters taking precedence on shared names. */
  function DatabaseInputs(metaData: map<string, real>, parameters: map<string, real>)
    : (r: Result<map<string, real>>)
    ensures r.Err? <==> "Volume" !in metaData
    ensures r.Err? ==> r.error == MissingKey("Volume")
    ensures r.Ok? ==> r.value.Keys == metaData.Keys + parameters.Keys + {"g", "rho", "m"}
    ensures r.Ok? ==> forall k :: k in parameters ==> r.value[k] == parameters[k]
    ensures r.Ok? && "g" !in parameters ==>
      r.value["g"] == (if "g" in metaData then metaData["g"] else 9.81)
    ensures r.Ok? && "rho" !in parameters ==>
      r.value["rho"] == (if "rho" in metaData then metaData["rho"] else 1000.0)
    ensures r.Ok? && "m" !in parameters ==>
      r.value["m"] == metaData["Volume"] * (if "rho" in metaData then metaData["rho"] else 1000.0)
    ensures r.Ok? ==> forall k :: k in metaData && k !in parameters && k !in {"g", "rho", "m"} ==>
      r.value[k] == metaData[k]
  {
    if "Volume" !in metaData then Err(MissingKey("Volume"))
    else
      var g := if "g" in metaData then metaData["g"] else 9.81;
      var rho := if "rho" in metaData then metaData["rho"] else 1000.0;
      Ok(metaData["g" := g]["rho" := rho]["m" := metaData["Volume"] * rho] + parameters)
  }

  /** The step-by-step assembly of the inputs in `result_for_database`. */
  method AssembleInputs(metaData: map<string, real>, parameters: map<string, real>)
    returns (r: Result<map<string, real>>)
    ensures r == DatabaseInputs(metaData, parameters)
  {
    var inputs := metaData;
    if "g" !in inputs {
      inputs := inputs["g" := 9.81];
    }
    if "rho" !in inputs {
      inputs := inputs["rho" := 1000.0];
    }
    if "Volume" !in inputs {
      return Err(MissingKey("Volume"));
    }
    ghost var g := if "g" in metaData then metaData["g"] else 9.81;
    ghost var rho := if "rho" in metaData then metaData["rho"] else 1000.0;
    assert inputs == metaData["g" := g]["rho" := rho];
    inputs := inputs["m" := inputs["Volume"] * inputs["rho"]];
    inputs := inputs + parameters;
    r := Ok(inputs);
  }

  /** Evaluating a generated equation on named inputs. */
  type Run = (Law, map<string, real>) -> real

  /** The tail of `result_for_database`: the additional parameters merged
      into the record, then omega0 evaluated with the record's A44. */
  method CompleteRecord(record: map<string, real>, additional: map<string, real>,
                        inputs: map<string, real>, omega0: Law, run: Run)
    returns (s: map<string, real>)
    requires "A_44" in record
    ensures s.Keys == record.Keys + additional.Keys + {"omega0"}
    ensures s["omega0"] == run(omega0, inputs["A_44" := (record + additional)["A_44"]])
    ensures forall k :: k in record && k !in additional && k != "omega0" ==> s[k] == record[k]
    ensures forall k :: k in additional && k != "omega0" ==> s[k] == additional[k]
  {
    s := record + additional;
    var withA44 := inputs["A_44" := s["A_44"]];
    s := s["omega0" := run(omega0, withA44)];
  }

  /** `result_for_database`: A44 from the inputs, the additional parameters
      merged into the base record, then omega0 from the same inputs with that
      A44. `base` is the base class's record. */
  method ResultForDatabase(e: RollDecay, lib: EquationLibrary, v: Variant, base: map<string, real>,
                           metaData: map<string, real>, normalized: set<string>,
                           backSolve: BackSolve, run: Run)
    returns (r: Result<map<string, real>>)
    ensures "Volume" !in metaData ==> r == Err(MissingKey("Volume"))
    ensures "Volume" in metaData && e.parameters.None? ==> r == Err(MissingAttribute("parameters"))
    ensures r.Ok? <==> "Volume" in metaData && e.parameters.Some?
    ensures r.Ok? ==>
      var inputs := DatabaseInputs(metaData, e.parameters.value).value;
      var a44 := run(lib.a44, inputs);
      var added := AdditionalKeys(e.parameters.value, normalized);
      r.value.Keys == base.Keys + added + {"A_44", "omega0"} &&
      ("A_44" !in added ==> r.value["A_44"] == a44) &&
      r.value["omega0"] == run(lib.omega0, inputs["A_44" := r.value["A_44"]]) &&
      (forall k :: k in base && k !in added && k != "A_44" && k != "omega0" ==> r.value[k] == base[k]) &&
      (forall n :: n in added && n != "omega0" ==>
         exists k :: (k in e.parameters.value && Shorten(k) == n &&
           r.value[n] == backSolve(n, k, e.parameters.value[k], a44)))
  {
    if "Volume" !in metaData {
      return Err(MissingKey("Volume"));
    }
    if e.parameters.None? {
      return Err(MissingAttribute("parameters"));
    }
    var inputs := AssembleInputs(metaData, e.parameters.value);
    var functions := Functions(lib, v);
    var s := base["A_44" := run(functions["A44"], inputs.value)];
    var additional := CalculateAdditionalParameters(e.parameters, normalized, backSolve, s["A_44"]);
    ghost var record := s;
    s := CompleteRecord(s, additional.value, inputs.value, functions["omega0"], run);
    assert record.Keys == base.Keys + {"A_44"};
    assert s.Keys == base.Keys + AdditionalKeys(e.parameters.value, normalized) + {"A_44", "omega0"};
    r := Ok(s);
  }
}
