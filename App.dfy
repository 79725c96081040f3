/**
 * The session coordinator (src/submarine_sim/app.py): it owns one ingestor, one hull
 * generator, one physics engine and one UI controller, and appends one telemetry
 * row per simulation step.
 */
module App {
  import opened Wrappers
  import opened Models
  import opened Ingestor
  import opened Physics
  import opened Hull
  import opened Ui

  datatype AppError = Ingest(cause: IngestError) | NoCaseLoaded | ControllerDetached

  /** One logged step: the snapshot's fields plus the mode that was active. */
  datatype TelemetryRow = TelemetryRow(snapshot: PhysicsSnapshot, environmentMode: string)

  /** The sigma handed to the step: the case's own when noise is on, zero otherwise. */
  function StepSigma(ui: UIState, p: SimulationInput): (sigma: real)
    ensures ui.noiseEnabled ==> sigma == p.environment.sensorNoiseSigma
    ensures !ui.noiseEnabled ==> sigma == 0.0
  {
    if ui.noiseEnabled then p.environment.sensorNoiseSigma else 0.0
  }

  /**
   * The row `update_scene` logs for case `p`, stored hull properties `hull`, UI flags `ui`,
   * current magnitude `currentMag` and standard-normal draw `z`. Area and volume come from
   * the hull generator, length and diameter from the case.
   */
  function SceneRow(
    engine: PhysicsEngine, p: SimulationInput, hull: HullProperties, ui: UIState,
    currentMag: real, z: real): (row: TelemetryRow)
    ensures row.environmentMode == ui.environmentMode
    ensures row.snapshot.effectiveVelocityMs == ApplyEnvironmentalNoise(
      EffectiveVelocity(p.physicsState.velocityMs, currentMag), StepSigma(ui, p), z)
    ensures !ui.noiseEnabled ==>
      row.snapshot.effectiveVelocityMs == EffectiveVelocity(p.physicsState.velocityMs, currentMag)
    ensures row.snapshot.dragForceN == CalculateDrag(row.snapshot.effectiveVelocityMs,
      DragCoefficientFor(p.hullGeometry.nacaProfile), hull.areaM2, p.environment.fluidDensityKgm3)
    ensures row.snapshot.buoyancyForceN ==
      p.environment.fluidDensityKgm3 * engine.gravity * hull.volumeM3
    ensures (row.snapshot.torqueRequiredNm, row.snapshot.torqueMarginNm) ==
      EvaluateSteeringFeasibility(row.snapshot.effectiveVelocityMs, row.snapshot.dragForceN,
        p.steeringOutput.targetFinAngleDeg, p.hullGeometry.finOffsetX, p.steeringOutput.motorTorqueNm)
    ensures row.snapshot.cavitationRisk <==>
      p.physicsState.depthM < CavitationDepthM && row.snapshot.effectiveVelocityMs > CavitationVelocityMs
    ensures row.snapshot.gmM == 0.2 * p.hullGeometry.maxDiameterM - 0.01 * p.hullGeometry.lengthM
    ensures row.snapshot.stabilityWarning <==> p.hullGeometry.lengthM > 20.0 * p.hullGeometry.maxDiameterM
  {
    var snapshot := Step(
      engine,
      p.physicsState.velocityMs, currentMag, p.environment.fluidDensityKgm3,
      DragCoefficientFor(p.hullGeometry.nacaProfile),
      hull.areaM2, hull.volumeM3,
      p.steeringOutput.targetFinAngleDeg, p.hullGeometry.finOffsetX,
      p.steeringOutput.motorTorqueNm, p.physicsState.depthM,
      p.hullGeometry.lengthM, p.hullGeometry.maxDiameterM,
      StepSigma(ui, p), z);
    TelemetryRow(snapshot, ui.environmentMode)
  }

  /** With noise off the row does not depend on the draw. */
  lemma SceneRowDeterministicWithNoiseOff(
    engine: PhysicsEngine, p: SimulationInput, hull: HullProperties, ui: UIState,
    currentMag: real, z1: real, z2: real)
    requires !ui.noiseEnabled
    ensures SceneRow(engine, p, hull, ui, currentMag, z1) == SceneRow(engine, p, hull, ui, currentMag, z2)
  {
    StepDeterministicWithoutNoise(
      engine, p.physicsState.velocityMs, currentMag, p.environment.fluidDensityKgm3,
      DragCoefficientFor(p.hullGeometry.nacaProfile), hull.areaM2, hull.volumeM3,
      p.steeringOutput.targetFinAngleDeg, p.hullGeometry.finOffsetX,
      p.steeringOutput.motorTorqueNm, p.physicsState.depthM,
      p.hullGeometry.lengthM, p.hullGeometry.maxDiameterM, 0.0, z1, z2);
  }

  /**
   * With noise off, the logged velocity is the forward speed plus the current magnitude
   * whenever that sum is non-negative, and the row carries the active mode.
   */
  lemma SceneRowVelocityWithNoiseOff(
    engine: PhysicsEngine, p: SimulationInput, hull: HullProperties, ui: UIState,
    currentMag: real, z: real)
    requires !ui.noiseEnabled
    requires p.physicsState.velocityMs + currentMag >= 0.0
    ensures SceneRow(engine, p, hull, ui, currentMag, z).snapshot.effectiveVelocityMs
         == p.physicsState.velocityMs + currentMag
    ensures SceneRow(engine, p, hull, ui, currentMag, z).environmentMode == ui.environmentMode
  {
  }

  /** Pitch, yaw and fin surface area never reach a row. */
  lemma SceneRowIgnoresAttitudeAndFinArea(
    engine: PhysicsEngine, p: SimulationInput, hull: HullProperties, ui: UIState,
    currentMag: real, z: real, pitchDeg: real, yawDeg: real, finAreaM2: real)
    ensures
      var q := p.(physicsState := p.physicsState.(pitchDeg := pitchDeg, yawDeg := yawDeg),
                  hullGeometry := p.hullGeometry.(finSurfaceAreaM2 := finAreaM2));
      SceneRow(engine, q, hull, ui, currentMag, z) == SceneRow(engine, p, hull, ui, currentMag, z)
  {
  }

  /** Owns the subsystems and the append-only telemetry log. */
  class SubmarineApp {
    const ingestor: MathIngestor
    const hullGenerator: HullGenerator
    const physicsEngine: PhysicsEngine
    const uiController: UIController<SubmarineApp>
    var telemetryRows: seq<TelemetryRow>

    /** The controller is wired back to this application. */
    ghost predicate Attached()
      reads uiController
    {
      uiController.app == Some(this)
    }

    constructor()
      ensures Attached()
      ensures telemetryRows == []
      ensures ingestor.currentParams == None
      ensures hullGenerator.lengthM == 3.0 && hullGenerator.diameterM == 0.5
      ensures hullGenerator.finSurfaceAreaM2 == 0.08
      ensures physicsEngine == PhysicsEngine(DefaultGravity)
      ensures uiController.state == InitialState
      ensures fresh(ingestor) && fresh(hullGenerator) && fresh(uiController)
    {
      ingestor := new MathIngestor();
      hullGenerator := new HullGenerator();
      physicsEngine := PhysicsEngine(DefaultGravity);
      var controller := new UIController<SubmarineApp>();
      uiController := controller;
      telemetryRows := [];
      new;
      controller.AttachApp(this);
    }

    /** The effect of `load_case(raw)` returning `r`. */
    twostate predicate LoadedAs(raw: RawCase, new r: Outcome<AppError>)
      reads this, ingestor, hullGenerator
    {
      var parsed := ParseAndValidate(raw);
      var hullKept := hullGenerator.lengthM == old(hullGenerator.lengthM)
        && hullGenerator.diameterM == old(hullGenerator.diameterM)
        && hullGenerator.finSurfaceAreaM2 == old(hullGenerator.finSurfaceAreaM2);
      match parsed
      case Failure(e) =>
        r == Fail(Ingest(e)) && ingestor.currentParams == old(ingestor.currentParams) && hullKept
      case Success(p) =>
        ingestor.currentParams == Some(p) &&
        (match PhaseLimitCheck(p)
         case Fail(e) => r == Fail(Ingest(e)) && hullKept
         case Pass =>
           r == Pass &&
           hullGenerator.lengthM == p.hullGeometry.lengthM &&
           hullGenerator.diameterM == p.hullGeometry.maxDiameterM &&
           hullGenerator.finSurfaceAreaM2 == p.hullGeometry.finSurfaceAreaM2)
    }

    /**
     * Parse, then check the phase limits of what is now loaded, then rebuild the hull.
     * A phase failure leaves the new case loaded and the hull as it was.
     */
    method LoadCase(raw: RawCase) returns (r: Outcome<AppError>)
      modifies ingestor, hullGenerator
      ensures LoadedAs(raw, r)
      ensures r.Pass? <==> SectionsPresent(raw) && ValidInput(Assemble(raw)) &&
                           WithinPhaseLimits(Assemble(raw))
    {
      var parsed := ingestor.LoadJson(raw);
      if parsed.Failure? {
        return Fail(Ingest(parsed.error));
      }
      var limits := ingestor.ValidateConstraints();
      if limits.Fail? {
        return Fail(Ingest(limits.error));
      }
      var payload := parsed.value;
      hullGenerator.UpdateHull(
        payload.hullGeometry.lengthM,
        payload.hullGeometry.maxDiameterM,
        payload.hullGeometry.finSurfaceAreaM2);
      r := Pass;
    }

    /** The row the next step logs, from the current case, hull and UI flags. */
    function NextRow(currentMag: real, z: real): (row: TelemetryRow)
      requires ingestor.currentParams.Some?
      reads ingestor, hullGenerator, uiController
      ensures row.environmentMode == uiController.state.environmentMode
      ensures row == SceneRow(physicsEngine, ingestor.currentParams.value,
                              HullProperties(FrontalArea(hullGenerator.diameterM),
                                             DisplacedVolume(hullGenerator.lengthM, hullGenerator.diameterM)),
                              uiController.state, currentMag, z)
    {
      SceneRow(physicsEngine, ingestor.currentParams.value, hullGenerator.GetProperties(),
               uiController.state, currentMag, z)
    }

    /** The current case's vector has magnitude `currentMag`, or no case is loaded. */
    ghost predicate MagnitudeMatches(currentMag: real)
      reads ingestor
    {
      ingestor.currentParams.Some? ==>
        IsMagnitude(currentMag, ingestor.currentParams.value.environment.currentVectorMs)
    }

    /** One step: log and return a row, or fail with nothing logged when no case is loaded. */
    method UpdateScene(currentMag: real, z: real) returns (r: Result<TelemetryRow, AppError>)
      requires MagnitudeMatches(currentMag)
      modifies this
      ensures ingestor.currentParams.None? ==>
        r == Failure(NoCaseLoaded) && telemetryRows == old(telemetryRows)
      ensures ingestor.currentParams.Some? ==>
        r == Success(NextRow(currentMag, z)) && telemetryRows == old(telemetryRows) + [r.value]
    {
      var payload := ingestor.currentParams;
      if payload.None? {
        return Failure(NoCaseLoaded);
      }
      var props := hullGenerator.GetProperties();
      var cd := ingestor.GetDragCoefficient();
      var sigma := if uiController.state.noiseEnabled then payload.value.environment.sensorNoiseSigma else 0.0;
      var p := payload.value;
      var snap := Step(
        physicsEngine,
        p.physicsState.velocityMs, currentMag, p.environment.fluidDensityKgm3, cd.value,
        props.areaM2, props.volumeM3,
        p.steeringOutput.targetFinAngleDeg, p.hullGeometry.finOffsetX,
        p.steeringOutput.motorTorqueNm, p.physicsState.depthM,
        p.hullGeometry.lengthM, p.hullGeometry.maxDiameterM,
        sigma, z);
      var row := TelemetryRow(snap, uiController.state.environmentMode);
      telemetryRows := telemetryRows + [row];
      r := Success(row);
    }

    /** The effect of `run(steps)` returning `r`, step `i` using draw `draws(i)`. */
    twostate predicate RanAs(steps: int, currentMag: real, draws: nat -> real,
                             new r: Result<seq<TelemetryRow>, AppError>)
      reads this, ingestor, hullGenerator, uiController
    {
      if steps <= 0 then
        r == Success([]) && telemetryRows == old(telemetryRows)
      else if ingestor.currentParams.None? then
        r == Failure(NoCaseLoaded) && telemetryRows == old(telemetryRows)
      else
        r.Success? && |r.value| == steps &&
        telemetryRows == old(telemetryRows) + r.value &&
        forall i :: 0 <= i < steps ==> r.value[i] == NextRow(currentMag, draws(i))
    }

    /** `steps` calls of `UpdateScene`; the first failure ends the run. */
    method Run(steps: int, currentMag: real, draws: nat -> real)
      returns (r: Result<seq<TelemetryRow>, AppError>)
      requires MagnitudeMatches(currentMag)
      modifies this
      ensures RanAs(steps, currentMag, draws, r)
    {
      var rows: seq<TelemetryRow> := [];
      var i := 0;
      while i < steps
        invariant 0 <= i && (steps <= 0 ==> i == 0) && (steps > 0 ==> i <= steps)
        invariant |rows| == i
        invariant i > 0 ==> ingestor.currentParams.Some?
        invariant telemetryRows == old(telemetryRows) + rows
        invariant ingestor.currentParams.Some? ==> forall k :: 0 <= k < i ==> rows[k] == NextRow(currentMag, draws(k))
        decreases steps - i
      {
        var row := UpdateScene(currentMag, draws(i));
        if row.Failure? {
          return Failure(row.error);
        }
        rows := rows + [row.value];
        i := i + 1;
      }
      r := Success(rows);
    }
  }

  /** `UIController.load_case`: forward to the attached application. */
  ghost function LoadTargets(c: UIController<SubmarineApp>): set<object>
    reads c
  {
    match c.app
    case None => {}
    case Some(a) => {a.ingestor, a.hullGenerator}
  }

  method ControllerLoadCase(c: UIController<SubmarineApp>, raw: RawCase) returns (r: Outcome<AppError>)
    modifies LoadTargets(c)
    ensures c.app.None? ==> r == Fail(ControllerDetached)
    ensures c.app.Some? ==> c.app.value.LoadedAs(raw, r)
  {
    match c.RequireApp()
    case Failure(_) =>
      r := Fail(ControllerDetached);
    case Success(a) =>
      r := a.LoadCase(raw);
  }

  /** `UIController.run_simulation`: forward to the attached application. */
  ghost function RunTargets(c: UIController<SubmarineApp>): set<object>
    reads c
  {
    match c.app
    case None => {}
    case Some(a) => {a}
  }

  method ControllerRun(c: UIController<SubmarineApp>, steps: int, currentMag: real, draws: nat -> real)
    returns (r: Result<seq<TelemetryRow>, AppError>)
    requires c.app.Some? ==> c.app.value.MagnitudeMatches(currentMag)
    modifies RunTargets(c)
    ensures c.app.None? ==> r == Failure(ControllerDetached)
    ensures c.app.Some? ==> c.app.value.RanAs(steps, currentMag, draws, r)
  {
    match c.RequireApp()
    case Failure(_) =>
      r := Failure(ControllerDetached);
    case Success(a) =>
      r := a.Run(steps, currentMag, draws);
  }

  /** A reference case: a 3 m by 0.5 m hull at 4 m/s in still sea water, noise off. */
  const ReferenceCase: RawCase := RawCase(
    Some(HullGeometry(3.0, 0.5, 1.0, "0009", 0.08)),
    Some(PhysicsState(4.0, 0.0, 0.0, 10.0)),
    Some(SteeringOutput(10.0, 50.0)),
    Some(Environment(1025.0, [0.0, 0.0, 0.0], 0.0)))

  /**
   * A fresh application loads the reference case and runs one step. The drag is
   * 102.5 pi (about 322.01 N) and the buoyancy 10055.25 pi / 8 (about 3948.68 N).
   */
  method ReferenceSession(draws: nat -> real) returns (loaded: Outcome<AppError>, row: TelemetryRow)
    ensures loaded == Pass
    ensures row.environmentMode == BaseMode
    ensures row.snapshot.effectiveVelocityMs == 4.0
    ensures 322.0 < row.snapshot.dragForceN < 322.1
    ensures 3948.6 < row.snapshot.buoyancyForceN < 3948.7
    ensures !row.snapshot.cavitationRisk
    ensures row.snapshot.gmM == 0.07 && !row.snapshot.stabilityWarning
    ensures row.snapshot.torqueRequiredNm * 35.0 == row.snapshot.dragForceN * 10.0
    ensures row.snapshot.torqueMarginNm == 50.0 - row.snapshot.torqueRequiredNm
  {
    var app := new SubmarineApp();
    loaded := app.LoadCase(ReferenceCase);
    assert SumOfSquares([0.0, 0.0, 0.0]) == 0.0 by {
      assert [0.0, 0.0, 0.0][..2] == [0.0, 0.0];
      assert [0.0, 0.0][..1] == [0.0];
      assert [0.0][..0] == [];
    }
    var run := app.Run(1, 0.0, draws);
    row := run.value[0];
    assert FrontalArea(0.5) == Pi * 0.0625;
    assert DisplacedVolume(3.0, 0.5) == (4.0 / 3.0) * Pi * 1.5 * 0.0625;
  }

  /**
   * The load is not atomic: after a case over the depth limit, the new case is loaded
   * but the hull keeps the dimensions of the previous one.
   */
  method StaleHullAfterPhaseFailure() returns (loaded: Outcome<AppError>, hullLengthM: real, caseLengthM: real)
    ensures loaded == Fail(Ingest(DepthLimitExceeded))
    ensures hullLengthM == 4.0 && caseLengthM == 6.0
  {
    var app := new SubmarineApp();
    var longer := ReferenceCase.(hullGeometry := Some(HullGeometry(4.0, 0.5, 1.0, "0009", 0.08)));
    var first := app.LoadCase(longer);
    var deep := ReferenceCase.(
      hullGeometry := Some(HullGeometry(6.0, 0.5, 1.0, "0009", 0.08)),
      physicsState := Some(PhysicsState(4.0, 0.0, 0.0, 600.0)));
    loaded := app.LoadCase(deep);
    hullLengthM := app.hullGenerator.lengthM;
    caseLengthM := app.ingestor.currentParams.value.hullGeometry.lengthM;
  }
}
