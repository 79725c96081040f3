/**
 * The records of one simulation case (src/submarine_sim/models.py).
 * Floats are modelled as exact reals and Python lists as sequences.
 */
module Models {

  /** Physical dimensions of the hull and its fin. */
  datatype HullGeometry = HullGeometry(
    lengthM: real,
    maxDiameterM: real,
    finOffsetX: real,
    nacaProfile: string,
    finSurfaceAreaM2: real)

  /** Kinematic state of the submarine. */
  datatype PhysicsState = PhysicsState(
    velocityMs: real,
    pitchDeg: real,
    yawDeg: real,
    depthM: real)

  /** Commanded steering. */
  datatype SteeringOutput = SteeringOutput(
    targetFinAngleDeg: real,
    motorTorqueNm: real)

  /** Water conditions. */
  datatype Environment = Environment(
    fluidDensityKgm3: real,
    currentVectorMs: seq<real>,
    sensorNoiseSigma: real)

  /** One case: the four sections grouped together. */
  datatype SimulationInput = SimulationInput(
    hullGeometry: HullGeometry,
    physicsState: PhysicsState,
    steeringOutput: SteeringOutput,
    environment: Environment)

  /** Python's `abs` on a float. */
  function Abs(x: real): (r: real)
    ensures r >= 0.0
    ensures r == x || r == -x
  {
    if x < 0.0 then -x else x
  }
}
