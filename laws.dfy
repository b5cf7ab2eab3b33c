/** The roll equations of motion as plain real functions: the base linear law
    of the RollDecay estimator, and the damping (B44) and restoring (C44)
    moments of the four EstimatorCubic variants. */
module Laws {
  import opened Common

  /** The acceleration of the linear roll-decay equation
      phi = -phi2d / omega0^2 - 2 zeta / omega0 * phi1d, solved for phi2d. */
  function LinearAcceleration(omega0: real, zeta: real, phi: real, phi1d: real): (a: real)
    ensures phi == 0.0 && phi1d == 0.0 ==> a == 0.0
    ensures zeta == 0.0 ==> a * phi <= 0.0
  {
    -omega0 * omega0 * phi - 2.0 * zeta * omega0 * phi1d
  }

  /** The acceleration is the one solution of the equation it was derived from. */
  lemma LinearAccelerationSolvesEquation(omega0: real, zeta: real, phi: real, phi1d: real, a: real)
    requires omega0 != 0.0
    ensures a == LinearAcceleration(omega0, zeta, phi, phi1d) <==>
      phi == -a / (omega0 * omega0) - 2.0 * zeta / omega0 * phi1d
  {
    var w2 := omega0 * omega0;
    ProductNonZero(omega0, omega0, w2);
    var rhs := -a / w2 - 2.0 * zeta / omega0 * phi1d;
    assert 2.0 * zeta / omega0 * phi1d * w2 == 2.0 * zeta * omega0 * phi1d by {
      assert 2.0 * zeta / omega0 * phi1d * w2 == 2.0 * zeta * phi1d * (w2 / omega0);
      assert w2 / omega0 == omega0;
    }
    assert rhs * w2 == -a - 2.0 * zeta * omega0 * phi1d;
    assert phi == rhs <==> phi * w2 == rhs * w2;
  }

  lemma ProductNonZero(a: real, b: real, p: real)
    requires a != 0.0 && b != 0.0 && p == a * b
    ensures p != 0.0
  {
  }

  // ------------------------------------------------------------ damping B44

  /** Cubic variant: B1 phi1d + B2 phi1d |phi1d| + B3 phi1d^3. */
  function CubicDamping(b1: real, b2: real, b3: real, v: real): (d: real)
    ensures v == 0.0 ==> d == 0.0
    ensures b1 >= 0.0 && b2 >= 0.0 && b3 >= 0.0 ==> d * v >= 0.0
  {
    b1 * v + b2 * v * Abs(v) + b3 * v * v * v
  }

  /** QuadraticB and QuadraticBandC variants: B1 phi1d + B2 phi1d |phi1d|. */
  function QuadraticDamping(b1: real, b2: real, v: real): (d: real)
    ensures v == 0.0 ==> d == 0.0
    ensures b1 >= 0.0 && b2 >= 0.0 ==> d * v >= 0.0
  {
    b1 * v + b2 * v * Abs(v)
  }

  /** Linear variant: B1 phi1d. */
  function LinearDamping(b1: real, v: real): (d: real)
    ensures v == 0.0 ==> d == 0.0
    ensures b1 >= 0.0 ==> d * v >= 0.0
  {
    b1 * v
  }

  // ---------------------------------------------------------- restoring C44

  /** Cubic variant: C1 phi + C3 phi^3 + C5 phi^5. */
  function QuinticRestoring(c1: real, c3: real, c5: real, phi: real): (c: real)
    ensures phi == 0.0 ==> c == 0.0
    ensures c1 >= 0.0 && c3 >= 0.0 && c5 >= 0.0 ==> c * phi >= 0.0
  {
    c1 * phi + c3 * phi * phi * phi + c5 * phi * phi * phi * phi * phi
  }

  /** QuadraticBandC variant: C1 phi + C3 phi^3. */
  function CubicRestoring(c1: real, c3: real, phi: real): (c: real)
    ensures phi == 0.0 ==> c == 0.0
    ensures c1 >= 0.0 && c3 >= 0.0 ==> c * phi >= 0.0
  {
    c1 * phi + c3 * phi * phi * phi
  }

  /** QuadraticB and Linear variants: C1 phi. */
  function LinearRestoring(c1: real, phi: real): (c: real)
    ensures phi == 0.0 ==> c == 0.0
    ensures c1 >= 0.0 ==> c * phi >= 0.0
  {
    c1 * phi
  }

  // ----------------------------------------------------------- properties

  /** No damping moment at rest, and the moment is odd in the roll rate. */
  lemma DampingIsOdd(b1: real, b2: real, b3: real, v: real)
    ensures CubicDamping(b1, b2, b3, 0.0) == 0.0
    ensures QuadraticDamping(b1, b2, 0.0) == 0.0
    ensures LinearDamping(b1, 0.0) == 0.0
    ensures CubicDamping(b1, b2, b3, -v) == -CubicDamping(b1, b2, b3, v)
    ensures QuadraticDamping(b1, b2, -v) == -QuadraticDamping(b1, b2, v)
    ensures LinearDamping(b1, -v) == -LinearDamping(b1, v)
  {
  }

  /** No restoring moment upright, and the moment is odd in the roll angle. */
  lemma RestoringIsOdd(c1: real, c3: real, c5: real, phi: real)
    ensures QuinticRestoring(c1, c3, c5, 0.0) == 0.0
    ensures CubicRestoring(c1, c3, 0.0) == 0.0
    ensures LinearRestoring(c1, 0.0) == 0.0
    ensures QuinticRestoring(c1, c3, c5, -phi) == -QuinticRestoring(c1, c3, c5, phi)
    ensures CubicRestoring(c1, c3, -phi) == -CubicRestoring(c1, c3, phi)
    ensures LinearRestoring(c1, -phi) == -LinearRestoring(c1, phi)
  {
  }

  /** The simpler damping laws are the cubic law with coefficients set to 0. */
  lemma DampingNests(b1: real, b2: real, v: real)
    ensures LinearDamping(b1, v) == QuadraticDamping(b1, 0.0, v)
    ensures QuadraticDamping(b1, b2, v) == CubicDamping(b1, b2, 0.0, v)
  {
  }

  /** The simpler restoring laws are the quintic law with coefficients set to 0. */
  lemma RestoringNests(c1: real, c3: real, phi: real)
    ensures LinearRestoring(c1, phi) == CubicRestoring(c1, 0.0, phi)
    ensures CubicRestoring(c1, c3, phi) == QuinticRestoring(c1, c3, 0.0, phi)
  {
  }

  /** With non-negative coefficients every damping law opposes the motion:
      the moment has the sign of the roll rate. */
  lemma DampingDissipates(b1: real, b2: real, b3: real, v: real)
    requires b1 >= 0.0 && b2 >= 0.0 && b3 >= 0.0
    ensures CubicDamping(b1, b2, b3, v) * v >= 0.0
    ensures QuadraticDamping(b1, b2, v) * v >= 0.0
    ensures LinearDamping(b1, v) * v >= 0.0
  {
  }

  /** The base linear law is minus the linear damping and restoring moments
      with the normalised coefficients B1/A44 = 2 zeta omega0 and
      C1/A44 = omega0^2. */
  lemma LinearLawIsLinearVariant(omega0: real, zeta: real, phi: real, phi1d: real)
    ensures LinearAcceleration(omega0, zeta, phi, phi1d) ==
      -(LinearDamping(2.0 * zeta * omega0, phi1d) + LinearRestoring(omega0 * omega0, phi))
  {
  }
}
