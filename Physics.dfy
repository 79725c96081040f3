/**
 * One simulation tick (src/submarine_sim/physics_engine.py): closed-form
 * formulas over exact reals.
 *
 * Two inputs of the source are not computable here and become parameters:
 * the magnitude of the current vector (the source takes a square root; the
 * caller passes `currentMag`, related to the vector by `IsMagnitude`), and the
 * Gaussian draw (`random.gauss(0, s)` returns `z * s` for a standard-normal
 * draw `z`; the caller passes `z`).
 */
module Physics {
  import opened Models

  /** The record one step produces. */
  datatype PhysicsSnapshot = PhysicsSnapshot(
    dragForceN: real,
    buoyancyForceN: real,
    effectiveVelocityMs: real,
    torqueRequiredNm: real,
    torqueMarginNm: real,
    cavitationRisk: bool,
    gmM: real,
    stabilityWarning: bool)

  /** The engine's only state that the step reads. */
  datatype PhysicsEngine = PhysicsEngine(gravity: real)

  const DefaultGravity: real := 9.81
  const NoiseFloor: real := 0.000001
  const MaxFinAngleDeg: real := 35.0
  const CavitationDepthM: real := 2.0
  const CavitationVelocityMs: real := 5.0

  /** The sum of the squared components of a vector, added left to right. */
  function SumOfSquares(c: seq<real>): (s: real)
    ensures s >= 0.0
  {
    if c == [] then 0.0
    else
      var rest := SumOfSquares(c[..|c| - 1]);
      var x := c[|c| - 1];
      SquareNonNegative(x);
      rest + x * x
  }

  lemma SquareNonNegative(x: real)
    ensures x * x >= 0.0
  {
    if x < 0.0 {
      assert x * x == (-x) * (-x);
    }
  }

  /** `m` is the Euclidean norm of `c`: the value the square root returns. */
  ghost predicate IsMagnitude(m: real, c: seq<real>) {
    m >= 0.0 && m * m == SumOfSquares(c)
  }

  /** Quadratic drag. */
  function CalculateDrag(velocityMs: real, dragCoefficient: real, areaM2: real, densityKgm3: real): (f: real)
    ensures densityKgm3 >= 0.0 && dragCoefficient >= 0.0 && areaM2 >= 0.0 ==> f >= 0.0
    ensures velocityMs == 0.0 ==> f == 0.0
  {
    0.5 * densityKgm3 * velocityMs * velocityMs * dragCoefficient * areaM2
  }

  /** Archimedes buoyancy for the engine's gravity. */
  function CalculateBuoyancy(engine: PhysicsEngine, volumeM3: real, densityKgm3: real): (f: real)
    ensures densityKgm3 > 0.0 && engine.gravity > 0.0 && volumeM3 > 0.0 ==> f > 0.0
  {
    densityKgm3 * engine.gravity * volumeM3
  }

  /** Standard deviation of the relative noise: sigma times |value|, floored at 1e-6. */
  function NoiseScale(value: real, sigma: real): (s: real)
    ensures sigma > 0.0 ==> s > 0.0
  {
    sigma * (if Abs(value) >= NoiseFloor then Abs(value) else NoiseFloor)
  }

  /** Relative Gaussian noise; `z` is the standard-normal draw. */
  function ApplyEnvironmentalNoise(value: real, sigma: real, z: real): (r: real)
    ensures sigma <= 0.0 ==> r == value
    ensures z == 0.0 ==> r == value
    ensures sigma > 0.0 ==> r - value == z * NoiseScale(value, sigma)
  {
    if sigma <= 0.0 then value else value + z * NoiseScale(value, sigma)
  }

  /** The commanded fin angle as a fraction of the 35 degree limit, saturating at 1. */
  function AngleRatio(targetFinAngleDeg: real): (q: real)
    ensures 0.0 <= q <= 1.0
    ensures Abs(targetFinAngleDeg) >= MaxFinAngleDeg ==> q == 1.0
    ensures Abs(targetFinAngleDeg) < MaxFinAngleDeg ==> q * MaxFinAngleDeg == Abs(targetFinAngleDeg)
  {
    var ratio := Abs(targetFinAngleDeg) / MaxFinAngleDeg;
    if ratio <= 1.0 then ratio else 1.0
  }

  /** Torque needed to hold the commanded fin angle against drag, and what the motor has left. */
  function EvaluateSteeringFeasibility(
    velocityMs: real, dragForceN: real, targetFinAngleDeg: real,
    finOffsetM: real, motorTorqueNm: real): (t: (real, real))
    ensures t.1 == motorTorqueNm - t.0
    ensures dragForceN >= 0.0 ==> 0.0 <= t.0 <= dragForceN * Abs(finOffsetM)
    ensures Abs(targetFinAngleDeg) >= MaxFinAngleDeg ==> t.0 == dragForceN * Abs(finOffsetM)
    ensures Abs(targetFinAngleDeg) < MaxFinAngleDeg ==>
      t.0 * MaxFinAngleDeg == dragForceN * Abs(finOffsetM) * Abs(targetFinAngleDeg)
    ensures targetFinAngleDeg == 0.0 || finOffsetM == 0.0 ==> t.0 == 0.0
  {
    var q := AngleRatio(targetFinAngleDeg);
    var lever := dragForceN * Abs(finOffsetM);
    var required := lever * q;
    assert dragForceN >= 0.0 ==> 0.0 <= required <= lever by {
      if dragForceN >= 0.0 {
        MulNonNegative(dragForceN, Abs(finOffsetM));
        ScaledByFraction(lever, q);
      }
    }
    assert Abs(targetFinAngleDeg) < MaxFinAngleDeg ==>
      required * MaxFinAngleDeg == lever * Abs(targetFinAngleDeg) by {
      if Abs(targetFinAngleDeg) < MaxFinAngleDeg {
        calc {
          required * MaxFinAngleDeg;
          lever * (q * MaxFinAngleDeg);
          lever * Abs(targetFinAngleDeg);
        }
      }
    }
    assert targetFinAngleDeg == 0.0 ==> required == 0.0 by {
      if targetFinAngleDeg == 0.0 {
        assert q == 0.0;
      }
    }
    assert finOffsetM == 0.0 ==> required == 0.0 by {
      if finOffsetM == 0.0 {
        assert lever == 0.0;
      }
    }
    (required, motorTorqueNm - required)
  }

  /** Shallow and fast: both comparisons are strict. */
  function CavitationCheck(depthM: real, velocityMs: real): (r: bool)
    ensures r ==> depthM < CavitationDepthM && velocityMs > CavitationVelocityMs
    ensures depthM < CavitationDepthM && velocityMs > CavitationVelocityMs ==> r
  {
    depthM < CavitationDepthM && velocityMs > CavitationVelocityMs
  }

  /** Linear metacentric-height proxy. */
  function StabilityCheck(lengthM: real, diameterM: real): (r: real)
    ensures r < 0.0 <==> lengthM > 20.0 * diameterM
    ensures r == 0.0 <==> lengthM == 20.0 * diameterM
  {
    diameterM * 0.2 - lengthM * 0.01
  }

  /** Forward speed plus current magnitude, clamped at zero. */
  function EffectiveVelocity(velocityMs: real, currentMag: real): (v: real)
    ensures v >= 0.0
    ensures v >= velocityMs + currentMag
    ensures velocityMs + currentMag >= 0.0 ==> v == velocityMs + currentMag
    ensures velocityMs + currentMag <= 0.0 ==> v == 0.0
  {
    if 0.0 >= velocityMs + currentMag then 0.0 else velocityMs + currentMag
  }

  /** One tick: effective velocity, noise, drag, buoyancy, steering, cavitation, stability. */
  function Step(
    engine: PhysicsEngine,
    velocityMs: real, currentMag: real, densityKgm3: real, dragCoefficient: real,
    areaM2: real, volumeM3: real, targetFinAngleDeg: real, finOffsetM: real,
    motorTorqueNm: real, depthM: real, lengthM: real, diameterM: real,
    sensorNoiseSigma: real, z: real): (s: PhysicsSnapshot)
    ensures s.effectiveVelocityMs ==
      ApplyEnvironmentalNoise(EffectiveVelocity(velocityMs, currentMag), sensorNoiseSigma, z)
    ensures sensorNoiseSigma <= 0.0 ==>
      s.effectiveVelocityMs == EffectiveVelocity(velocityMs, currentMag)
    ensures s.dragForceN ==
      CalculateDrag(s.effectiveVelocityMs, dragCoefficient, areaM2, densityKgm3)
    ensures s.buoyancyForceN == densityKgm3 * engine.gravity * volumeM3
    ensures (s.torqueRequiredNm, s.torqueMarginNm) == EvaluateSteeringFeasibility(
      s.effectiveVelocityMs, s.dragForceN, targetFinAngleDeg, finOffsetM, motorTorqueNm)
    ensures s.torqueMarginNm == motorTorqueNm - s.torqueRequiredNm
    ensures densityKgm3 >= 0.0 && dragCoefficient >= 0.0 && areaM2 >= 0.0 ==>
      0.0 <= s.torqueRequiredNm <= s.dragForceN * Abs(finOffsetM)
    ensures s.cavitationRisk <==>
      depthM < CavitationDepthM && s.effectiveVelocityMs > CavitationVelocityMs
    ensures s.gmM == 0.2 * diameterM - 0.01 * lengthM
    ensures s.stabilityWarning <==> lengthM > 20.0 * diameterM
  {
    var effective := EffectiveVelocity(velocityMs, currentMag);
    var noisy := ApplyEnvironmentalNoise(effective, sensorNoiseSigma, z);
    var drag := CalculateDrag(noisy, dragCoefficient, areaM2, densityKgm3);
    var buoyancy := CalculateBuoyancy(engine, volumeM3, densityKgm3);
    var torque := EvaluateSteeringFeasibility(
      noisy, drag, targetFinAngleDeg, finOffsetM, motorTorqueNm);
    var gm := StabilityCheck(lengthM, diameterM);
    PhysicsSnapshot(
      dragForceN := drag,
      buoyancyForceN := buoyancy,
      effectiveVelocityMs := noisy,
      torqueRequiredNm := torque.0,
      torqueMarginNm := torque.1,
      cavitationRisk := CavitationCheck(depthM, noisy),
      gmM := gm,
      stabilityWarning := gm < 0.0)
  }

  /** Drag is the same for a velocity and its opposite. */
  lemma DragIsEven(v: real, cd: real, a: real, rho: real)
    ensures CalculateDrag(-v, cd, a, rho) == CalculateDrag(v, cd, a, rho)
  {
    assert (-v) * (-v) == v * v;
  }

  lemma MulNonNegative(x: real, y: real)
    requires x >= 0.0 && y >= 0.0
    ensures x * y >= 0.0
  {
  }

  /** Scaling a non-negative amount by a fraction in [0, 1] keeps it between 0 and itself. */
  lemma ScaledByFraction(k: real, q: real)
    requires k >= 0.0 && 0.0 <= q <= 1.0
    ensures 0.0 <= k * q <= k
  {
    MulNonNegative(k, q);
    MulNonNegative(k, 1.0 - q);
    assert k - k * q == k * (1.0 - q);
  }

  /** Squaring is monotone on non-negative numbers. */
  lemma SquareMonotone(a: real, b: real)
    requires 0.0 <= a <= b
    ensures a * a <= b * b
  {
    MulNonNegative(a, b - a);
    MulNonNegative(b, b - a);
    assert b * b - a * a == a * (b - a) + b * (b - a);
  }

  /** A number and its magnitude have the same square. */
  lemma SquareOfAbs(v: real)
    ensures v * v == Abs(v) * Abs(v)
  {
    if v < 0.0 {
      assert Abs(v) == -v;
      assert (-v) * (-v) == v * v;
    }
  }

  /** With non-negative factors held fixed, drag does not decrease as |v| grows. */
  lemma DragMonotoneInSpeed(v1: real, v2: real, cd: real, a: real, rho: real)
    requires cd >= 0.0 && a >= 0.0 && rho >= 0.0
    requires Abs(v1) <= Abs(v2)
    ensures CalculateDrag(v1, cd, a, rho) <= CalculateDrag(v2, cd, a, rho)
  {
    var k := 0.5 * rho * cd * a;
    MulNonNegative(0.5 * rho, cd);
    MulNonNegative(0.5 * rho * cd, a);
    SquareOfAbs(v1);
    SquareOfAbs(v2);
    SquareMonotone(Abs(v1), Abs(v2));
    var s1, s2 := v1 * v1, v2 * v2;
    MulNonNegative(k, s2 - s1);
    assert k * s2 - k * s1 == k * (s2 - s1);
    assert CalculateDrag(v1, cd, a, rho) == k * (v1 * v1);
    assert CalculateDrag(v2, cd, a, rho) == k * (v2 * v2);
  }

  /** With non-negative factors held fixed, drag does not decrease as density grows. */
  lemma DragMonotoneInDensity(v: real, cd: real, a: real, rho1: real, rho2: real)
    requires cd >= 0.0 && a >= 0.0
    requires rho1 <= rho2
    ensures CalculateDrag(v, cd, a, rho1) <= CalculateDrag(v, cd, a, rho2)
  {
    var k := 0.5 * (v * v) * cd * a;
    assert v * v >= 0.0;
    assert k >= 0.0;
    assert CalculateDrag(v, cd, a, rho1) == k * rho1;
    assert CalculateDrag(v, cd, a, rho2) == k * rho2;
  }

  /** The cavitation flag is false on either boundary: depth 2.0 or velocity 5.0. */
  lemma CavitationBoundariesAreSafe(depthM: real, velocityMs: real)
    ensures !CavitationCheck(CavitationDepthM, velocityMs)
    ensures !CavitationCheck(depthM, CavitationVelocityMs)
  {
  }

  /** Buoyancy depends on neither velocity nor noise: two steps that differ only there agree on it. */
  lemma BuoyancyIgnoresMotion(
    engine: PhysicsEngine,
    v1: real, v2: real, m1: real, m2: real, sigma1: real, sigma2: real, z1: real, z2: real,
    rho: real, cd: real, a: real, vol: real, angle: real, offset: real, torque: real,
    depth: real, len: real, diam: real)
    ensures Step(engine, v1, m1, rho, cd, a, vol, angle, offset, torque, depth, len, diam, sigma1, z1).buoyancyForceN
         == Step(engine, v2, m2, rho, cd, a, vol, angle, offset, torque, depth, len, diam, sigma2, z2).buoyancyForceN
  {
  }

  /** Noise off: the step does not depend on the draw. */
  lemma StepDeterministicWithoutNoise(
    engine: PhysicsEngine, v: real, mag: real, rho: real, cd: real, a: real, vol: real,
    angle: real, offset: real, torque: real, depth: real, len: real, diam: real,
    sigma: real, z1: real, z2: real)
    requires sigma <= 0.0
    ensures Step(engine, v, mag, rho, cd, a, vol, angle, offset, torque, depth, len, diam, sigma, z1)
         == Step(engine, v, mag, rho, cd, a, vol, angle, offset, torque, depth, len, diam, sigma, z2)
  {
  }
}
