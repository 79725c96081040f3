/**
 * Loading and validation of simulation cases (src/submarine_sim/math_ingestor.py).
 *
 * The model starts from an already-decoded case: reading the file and JSON
 * decoding are outside it. A section is `None` when the decoded mapping lacks
 * it or its keys do not match the record, which is where building the record
 * fails in the source.
 */
module Ingestor {
  import opened Wrappers
  import opened Models

  /**
   * Why a load or a query failed: one variant per check. The source reports
   * the field, phase and no-parameters failures all as the same exception
   * class with different messages; the variants only name which check fired.
   */
  datatype IngestError =
    | MissingSection(section: string)
    | LengthNotPositive
    | DiameterNotPositive
    | FinAreaNotPositive
    | VelocityNegative
    | DepthNegative
    | TorqueNotPositive
    | CurrentVectorNotThree
    | DensityOutOfRange
    | NoiseSigmaOutOfRange
    | NoParametersLoaded
    | DepthLimitExceeded
    | FinAngleLimitExceeded

  /** A decoded case file, section by section. */
  datatype RawCase = RawCase(
    hullGeometry: Option<HullGeometry>,
    physicsState: Option<PhysicsState>,
    steeringOutput: Option<SteeringOutput>,
    environment: Option<Environment>)

  const MinDensityKgm3: real := 900.0
  const MaxDensityKgm3: real := 1300.0
  const MaxNoiseSigma: real := 0.1
  const CurrentComponents: nat := 3
  const DepthLimitM: real := 500.0
  const FinAngleLimitDeg: real := 35.0
  const ReferenceProfile: string := "0009"
  const BaseDragCoefficient: real := 0.2
  const ProfilePenalty: real := 0.03

  predicate SectionsPresent(raw: RawCase) {
    raw.hullGeometry.Some? && raw.physicsState.Some? &&
    raw.steeringOutput.Some? && raw.environment.Some?
  }

  function Assemble(raw: RawCase): SimulationInput
    requires SectionsPresent(raw)
  {
    SimulationInput(raw.hullGeometry.value, raw.physicsState.value,
                    raw.steeringOutput.value, raw.environment.value)
  }

  /** The field-level envelope of a valid case, bound by bound. */
  predicate ValidInput(p: SimulationInput) {
    p.hullGeometry.lengthM > 0.0 &&
    p.hullGeometry.maxDiameterM > 0.0 &&
    p.hullGeometry.finSurfaceAreaM2 > 0.0 &&
    p.physicsState.velocityMs >= 0.0 &&
    p.physicsState.depthM >= 0.0 &&
    p.steeringOutput.motorTorqueNm > 0.0 &&
    |p.environment.currentVectorMs| == CurrentComponents &&
    MinDensityKgm3 <= p.environment.fluidDensityKgm3 <= MaxDensityKgm3 &&
    0.0 <= p.environment.sensorNoiseSigma <= MaxNoiseSigma
  }

  /** The nine field-level checks, one value each. */
  datatype FieldCheck =
    | LengthPositive
    | DiameterPositive
    | FinAreaPositive
    | VelocityNonNegative
    | DepthNonNegative
    | TorquePositive
    | CurrentHasThreeComponents
    | DensityInRange
    | SigmaInRange

  /** The order in which the loader applies the field-level checks. */
  const FieldCheckOrder: seq<FieldCheck> := [
    LengthPositive, DiameterPositive, FinAreaPositive, VelocityNonNegative,
    DepthNonNegative, TorquePositive, CurrentHasThreeComponents,
    DensityInRange, SigmaInRange]

  predicate Holds(c: FieldCheck, p: SimulationInput) {
    match c
    case LengthPositive => p.hullGeometry.lengthM > 0.0
    case DiameterPositive => p.hullGeometry.maxDiameterM > 0.0
    case FinAreaPositive => p.hullGeometry.finSurfaceAreaM2 > 0.0
    case VelocityNonNegative => p.physicsState.velocityMs >= 0.0
    case DepthNonNegative => p.physicsState.depthM >= 0.0
    case TorquePositive => p.steeringOutput.motorTorqueNm > 0.0
    case CurrentHasThreeComponents => |p.environment.currentVectorMs| == CurrentComponents
    case DensityInRange =>
      MinDensityKgm3 <= p.environment.fluidDensityKgm3 <= MaxDensityKgm3
    case SigmaInRange => 0.0 <= p.environment.sensorNoiseSigma <= MaxNoiseSigma
  }

  /** The error a failed check reports. */
  function CheckError(c: FieldCheck): IngestError {
    match c
    case LengthPositive => LengthNotPositive
    case DiameterPositive => DiameterNotPositive
    case FinAreaPositive => FinAreaNotPositive
    case VelocityNonNegative => VelocityNegative
    case DepthNonNegative => DepthNegative
    case TorquePositive => TorqueNotPositive
    case CurrentHasThreeComponents => CurrentVectorNotThree
    case DensityInRange => DensityOutOfRange
    case SigmaInRange => NoiseSigmaOutOfRange
  }

  /** The index of the first check in `checks` that `p` violates, if any. */
  function FirstViolation(p: SimulationInput, checks: seq<FieldCheck>): (r: Option<nat>)
    ensures r.None? <==> forall i :: 0 <= i < |checks| ==> Holds(checks[i], p)
    ensures r.Some? ==> r.value < |checks| && !Holds(checks[r.value], p)
    ensures r.Some? ==> forall i :: 0 <= i < r.value ==> Holds(checks[i], p)
  {
    if checks == [] then None
    else if !Holds(checks[0], p) then Some(0)
    else
      match FirstViolation(p, checks[1..])
      case None => None
      case Some(i) => Some(i + 1)
  }

  /**
   * `_parse_and_validate`: build the four records, then apply the field
   * checks in order; the first one that fails decides the error.
   */
  function ParseAndValidate(raw: RawCase): (r: Result<SimulationInput, IngestError>)
    ensures r.Success? <==> SectionsPresent(raw) && ValidInput(Assemble(raw))
    ensures r.Success? ==> r.value == Assemble(raw)
    ensures r.Failure? && r.error.MissingSection? <==> !SectionsPresent(raw)
  {
    if raw.hullGeometry.None? then Failure(MissingSection("hull_geometry"))
    else if raw.physicsState.None? then Failure(MissingSection("physics_state"))
    else if raw.steeringOutput.None? then Failure(MissingSection("steering_output"))
    else if raw.environment.None? then Failure(MissingSection("environment"))
    else
      var hg, ps, so, env :=
        raw.hullGeometry.value, raw.physicsState.value,
        raw.steeringOutput.value, raw.environment.value;
      if hg.lengthM <= 0.0 then Failure(LengthNotPositive)
      else if hg.maxDiameterM <= 0.0 then Failure(DiameterNotPositive)
      else if hg.finSurfaceAreaM2 <= 0.0 then Failure(FinAreaNotPositive)
      else if ps.velocityMs < 0.0 then Failure(VelocityNegative)
      else if ps.depthM < 0.0 then Failure(DepthNegative)
      else if so.motorTorqueNm <= 0.0 then Failure(TorqueNotPositive)
      else if |env.currentVectorMs| != CurrentComponents then Failure(CurrentVectorNotThree)
      else if !(MinDensityKgm3 <= env.fluidDensityKgm3 <= MaxDensityKgm3) then
        Failure(DensityOutOfRange)
      else if !(0.0 <= env.sensorNoiseSigma <= MaxNoiseSigma) then
        Failure(NoiseSigmaOutOfRange)
      else Success(SimulationInput(hg, ps, so, env))
  }

  /** Every check in the loader's list holds exactly when the case is in the envelope. */
  lemma AllChecksHoldIffValid(p: SimulationInput)
    ensures (forall i :: 0 <= i < |FieldCheckOrder| ==> Holds(FieldCheckOrder[i], p))
            <==> ValidInput(p)
  {
    if forall i :: 0 <= i < |FieldCheckOrder| ==> Holds(FieldCheckOrder[i], p) {
      assert Holds(FieldCheckOrder[0], p) && Holds(FieldCheckOrder[1], p);
      assert Holds(FieldCheckOrder[2], p) && Holds(FieldCheckOrder[3], p);
      assert Holds(FieldCheckOrder[4], p) && Holds(FieldCheckOrder[5], p);
      assert Holds(FieldCheckOrder[6], p) && Holds(FieldCheckOrder[7], p);
      assert Holds(FieldCheckOrder[8], p);
    }
  }

  /** A failed parse of a complete case reports the first check, in loader order, that fails. */
  lemma ParseReportsFirstViolation(raw: RawCase)
    requires SectionsPresent(raw)
    ensures var v := FirstViolation(Assemble(raw), FieldCheckOrder);
            ParseAndValidate(raw) ==
              if v.None? then Success(Assemble(raw))
              else Failure(CheckError(FieldCheckOrder[v.value]))
  {
    var p := Assemble(raw);
    AllChecksHoldIffValid(p);
    var v := FirstViolation(p, FieldCheckOrder);
    if v.Some? {
      var k := v.value;
      assert k < 9 && !Holds(FieldCheckOrder[k], p);
      assert 0 < k ==> Holds(FieldCheckOrder[0], p);
      assert 1 < k ==> Holds(FieldCheckOrder[1], p);
      assert 2 < k ==> Holds(FieldCheckOrder[2], p);
      assert 3 < k ==> Holds(FieldCheckOrder[3], p);
      assert 4 < k ==> Holds(FieldCheckOrder[4], p);
      assert 5 < k ==> Holds(FieldCheckOrder[5], p);
      assert 6 < k ==> Holds(FieldCheckOrder[6], p);
      assert 7 < k ==> Holds(FieldCheckOrder[7], p);
    }
  }

  /** `validate_constraints` on a loaded case: depth first, then the fin angle. */
  function PhaseLimitCheck(p: SimulationInput): (r: Outcome<IngestError>)
    ensures r.Pass? <==> WithinPhaseLimits(p)
    ensures r == Fail(DepthLimitExceeded) <==> p.physicsState.depthM > DepthLimitM
    ensures r == Fail(FinAngleLimitExceeded) <==>
      p.physicsState.depthM <= DepthLimitM &&
      Abs(p.steeringOutput.targetFinAngleDeg) > FinAngleLimitDeg
  {
    if p.physicsState.depthM > DepthLimitM then Fail(DepthLimitExceeded)
    else if Abs(p.steeringOutput.targetFinAngleDeg) > FinAngleLimitDeg then
      Fail(FinAngleLimitExceeded)
    else Pass
  }

  /** The phase-level safety envelope. */
  predicate WithinPhaseLimits(p: SimulationInput) {
    p.physicsState.depthM <= DepthLimitM &&
    -FinAngleLimitDeg <= p.steeringOutput.targetFinAngleDeg <= FinAngleLimitDeg
  }

  /** The drag coefficient of a NACA profile: the reference profile carries no penalty. */
  function DragCoefficientFor(profile: string): (cd: real)
    ensures cd == 0.2 || cd == 0.23
    ensures cd == 0.2 <==> profile == ReferenceProfile
  {
    BaseDragCoefficient + (if profile == ReferenceProfile then 0.0 else ProfilePenalty)
  }

  /** Both density bounds are inclusive: 900 and 1300 pass, 899.9 and 1300.1 do not. */
  lemma DensityBoundsInclusive(p: SimulationInput)
    requires ValidInput(p)
    ensures ValidInput(p.(environment := p.environment.(fluidDensityKgm3 := 900.0)))
    ensures ValidInput(p.(environment := p.environment.(fluidDensityKgm3 := 1300.0)))
    ensures !ValidInput(p.(environment := p.environment.(fluidDensityKgm3 := 899.9)))
    ensures !ValidInput(p.(environment := p.environment.(fluidDensityKgm3 := 1300.1)))
  {
  }

  /** Both sigma bounds are inclusive: 0 and 0.1 pass, anything outside does not. */
  lemma SigmaBoundsInclusive(p: SimulationInput, sigma: real)
    requires ValidInput(p)
    ensures ValidInput(p.(environment := p.environment.(sensorNoiseSigma := 0.0)))
    ensures ValidInput(p.(environment := p.environment.(sensorNoiseSigma := 0.1)))
    ensures sigma < 0.0 || sigma > 0.1 ==>
      !ValidInput(p.(environment := p.environment.(sensorNoiseSigma := sigma)))
  {
  }

  /** The phase limits are inclusive: depth 500 and angle +-35 pass, 500.01 m and 35.01 degrees fail. */
  lemma PhaseLimitBoundaries(p: SimulationInput)
    requires Abs(p.steeringOutput.targetFinAngleDeg) <= FinAngleLimitDeg
    ensures var q := p.(physicsState := p.physicsState.(depthM := 500.0));
            PhaseLimitCheck(q) == Pass
    ensures var q := p.(physicsState := p.physicsState.(depthM := 500.01));
            PhaseLimitCheck(q) == Fail(DepthLimitExceeded)
    ensures p.physicsState.depthM <= DepthLimitM ==>
      PhaseLimitCheck(p.(steeringOutput := p.steeringOutput.(targetFinAngleDeg := 35.0))) == Pass &&
      PhaseLimitCheck(p.(steeringOutput := p.steeringOutput.(targetFinAngleDeg := -35.0))) == Pass &&
      PhaseLimitCheck(p.(steeringOutput := p.steeringOutput.(targetFinAngleDeg := 35.01))) ==
        Fail(FinAngleLimitExceeded)
  {
  }

  /** Holds the current case; replaced only by a successful load. */
  class MathIngestor {
    var currentParams: Option<SimulationInput>

    constructor()
      ensures currentParams == None
    {
      currentParams := None;
    }

    /** `load_json` after decoding: a failed parse leaves the slot as it was. */
    method LoadJson(raw: RawCase) returns (r: Result<SimulationInput, IngestError>)
      modifies this
      ensures r == ParseAndValidate(raw)
      ensures currentParams == if r.Success? then Some(r.value) else old(currentParams)
    {
      r := ParseAndValidate(raw);
      if r.Success? {
        currentParams := Some(r.value);
      }
    }

    function ValidateConstraints(): (r: Outcome<IngestError>)
      reads this
      ensures r.Pass? <==> currentParams.Some? && WithinPhaseLimits(currentParams.value)
      ensures currentParams.None? ==> r == Fail(NoParametersLoaded)
      ensures currentParams.Some? ==> r == PhaseLimitCheck(currentParams.value)
    {
      match currentParams
      case None => Fail(NoParametersLoaded)
      case Some(p) => PhaseLimitCheck(p)
    }

    function GetDragCoefficient(): (r: Result<real, IngestError>)
      reads this
      ensures r.Failure? <==> currentParams.None?
      ensures r.Failure? ==> r.error == NoParametersLoaded
      ensures r.Success? ==>
        r.value == DragCoefficientFor(currentParams.value.hullGeometry.nacaProfile)
    {
      match currentParams
      case None => Failure(NoParametersLoaded)
      case Some(p) => Success(DragCoefficientFor(p.hullGeometry.nacaProfile))
    }
  }
}
