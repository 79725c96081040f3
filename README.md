# Submarine simulator core in Dafny

This project models the core of a small submarine simulator. The simulator does three things:

- It loads one case: hull geometry, kinematic state, steering command and water conditions.
- It checks the case against field-level ranges and a phase-level safety envelope.
- It advances a one-tick physics estimate that reports:
  - drag and buoyancy;
  - the effective velocity under current and sensor noise;
  - the steering torque margin;
  - the cavitation-risk and stability-warning flags.

A session coordinator ties these together. It holds the loaded case and the hull dimensions derived from it, plus a small UI flag state machine, and it appends one telemetry row per step.

Modules follow the source files:

| module | source | form |
|---|---|---|
| `Models` | `src/submarine_sim/models.py` | datatypes for the case records |
| `Ingestor` | `src/submarine_sim/math_ingestor.py` | pure parsing and validation functions, and a `MathIngestor` class holding the current case |
| `Physics` | `src/submarine_sim/physics_engine.py` | pure functions (the engine's only state that is read is its gravity) |
| `Hull` | `src/submarine_sim/hull_generator.py` | closed-form area and volume, and a `HullGenerator` class whose dimensions are updated in place |
| `Ui` | `src/submarine_sim/ui_controller.py` | a `UIController` class over the three UI flags, with a pure transition function for proofs over operation sequences |
| `App` | `src/submarine_sim/app.py` | a `SubmarineApp` class with the append-only telemetry log, and the controller's forwarding proxies |
| `Wrappers` | — | `Option`, `Result` and `Outcome` (pass or fail) |

How the model represents the source:

- Floats are exact reals.
- The standard-normal draw behind the Gaussian noise is a parameter `z`. The source's `random.gauss(0, s)` is `z * s`. `Run` takes one draw per step as a function `draws: nat -> real`.
- The square root of the current vector's sum of squares is a parameter `currentMag`. The ghost predicate `Physics.IsMagnitude` ties it to the vector, and the coordinator requires it.
- `math.pi` is the constant `Hull.Pi`. Proofs use only that it is positive, except for the numeric bounds of the reference case.

## Model

| member | source | states |
|---|---|---|
| Ingestor.FirstViolation | src/submarine_sim/math_ingestor.py:55-73 | no index exactly when every check holds; otherwise the index of a failing check with every earlier check holding |
| Ingestor.ParseAndValidate | src/submarine_sim/math_ingestor.py:47-80 | succeeds exactly when all four sections are present and the assembled case is within every field bound, and then returns that case; a missing-section error is reported exactly when a section is missing |
| Ingestor.AllChecksHoldIffValid | src/submarine_sim/math_ingestor.py:55-73 | the ordered list of nine checks holds in full exactly when the case satisfies the field envelope |
| Ingestor.ParseReportsFirstViolation | src/submarine_sim/math_ingestor.py:55-73 | for a complete case, the parse error is the error of the first failing check in loader order, and success otherwise |
| Ingestor.DensityBoundsInclusive | src/submarine_sim/math_ingestor.py:70-71 | density 900 and 1300 are accepted; 899.9 and 1300.1 are rejected |
| Ingestor.SigmaBoundsInclusive | src/submarine_sim/math_ingestor.py:72-73 | sigma 0 and 0.1 are accepted; any sigma outside [0, 0.1] is rejected |
| Ingestor.PhaseLimitCheck | src/submarine_sim/math_ingestor.py:25-35 | passes exactly inside the envelope (depth <= 500, angle within +-35); the depth failure is reported exactly when depth > 500; the fin-angle failure exactly when depth is in range and the angle is outside |
| Ingestor.PhaseLimitBoundaries | src/submarine_sim/math_ingestor.py:32-35 | depth 500 passes and 500.01 fails; angles 35 and -35 pass and 35.01 fails |
| Ingestor.DragCoefficientFor | src/submarine_sim/math_ingestor.py:43-45 | the coefficient is 0.2 or 0.23, and it is 0.2 exactly for profile "0009" |
| Ingestor.MathIngestor.constructor | src/submarine_sim/math_ingestor.py:14-15 | no case is loaded |
| Ingestor.MathIngestor.LoadJson | src/submarine_sim/math_ingestor.py:17-23 | returns the parse result; the held case becomes the parsed case on success and is unchanged on failure |
| Ingestor.MathIngestor.ValidateConstraints | src/submarine_sim/math_ingestor.py:25-35 | passes exactly when a case is loaded and within the phase envelope; the no-parameters error when nothing is loaded |
| Ingestor.MathIngestor.GetDragCoefficient | src/submarine_sim/math_ingestor.py:37-45 | fails exactly when nothing is loaded, with the no-parameters error; otherwise the loaded profile's coefficient |
| Physics.SumOfSquares | src/submarine_sim/physics_engine.py:74 | the sum of squared components is never negative |
| Physics.CalculateDrag | src/submarine_sim/physics_engine.py:27-28 | drag is non-negative for non-negative density, coefficient and area, and zero at zero velocity |
| Physics.CalculateBuoyancy | src/submarine_sim/physics_engine.py:30-31 | buoyancy is positive for positive density, gravity and volume |
| Physics.NoiseScale | src/submarine_sim/physics_engine.py:36 | the noise spread is positive whenever sigma is positive, even at zero value, because of the 1e-6 floor |
| Physics.ApplyEnvironmentalNoise | src/submarine_sim/physics_engine.py:33-36 | sigma <= 0 or a zero draw leave the value unchanged; otherwise the offset is the draw times the spread |
| Physics.AngleRatio | src/submarine_sim/physics_engine.py:46 | the ratio lies in [0, 1], is 1 from 35 degrees on, and below that is the angle's magnitude over 35 |
| Physics.EvaluateSteeringFeasibility | src/submarine_sim/physics_engine.py:38-48 | margin = motor torque minus required; required lies between 0 and drag times fin lever arm, equals that at saturation, below saturation is drag times lever arm times the angle's magnitude over 35, and is 0 at zero angle or zero offset |
| Physics.EffectiveVelocity | src/submarine_sim/physics_engine.py:75 | never negative, at least speed plus current; equal to it when that sum is non-negative and clamped to 0 when it is not positive |
| Physics.Step | src/submarine_sim/physics_engine.py:57-95 | the reported velocity is the noisy effective velocity (and the effective velocity itself when sigma <= 0); drag is computed from the reported velocity; the torque pair is the steering feasibility of that velocity and drag; buoyancy = rho g V; margin and torque bounds; cavitation exactly when depth < 2 and reported velocity > 5; gm = 0.2 d - 0.01 L; warning exactly when L > 20 d |
| Physics.DragIsEven | src/submarine_sim/physics_engine.py:27-28 | drag at -v equals drag at v |
| Physics.DragMonotoneInSpeed | src/submarine_sim/physics_engine.py:27-28 | with non-negative factors, drag does not decrease as speed magnitude grows |
| Physics.DragMonotoneInDensity | src/submarine_sim/physics_engine.py:27-28 | with non-negative coefficient and area, drag does not decrease as density grows |
| Physics.CavitationCheck | src/submarine_sim/physics_engine.py:50-51 | flags exactly the shallow-and-fast case: depth below 2 and velocity above 5, both strict |
| Physics.StabilityCheck | src/submarine_sim/physics_engine.py:53-55 | the proxy is negative exactly when the length exceeds twenty diameters, and zero exactly at twenty diameters |
| Physics.CavitationBoundariesAreSafe | src/submarine_sim/physics_engine.py:50-51 | depth exactly 2 or velocity exactly 5 never flags cavitation |
| Physics.BuoyancyIgnoresMotion | src/submarine_sim/physics_engine.py:79 | two steps differing only in speed, current, sigma and draw report the same buoyancy |
| Physics.StepDeterministicWithoutNoise | src/submarine_sim/physics_engine.py:74-95 | with sigma <= 0 the whole snapshot is independent of the draw |
| Hull.FrontalArea | src/submarine_sim/hull_generator.py:59-61 | the area is never negative, and positive for any non-zero diameter |
| Hull.DisplacedVolume | src/submarine_sim/hull_generator.py:63-66 | positive length and diameter give a positive volume |
| Hull.AreaIncreasesWithDiameter | src/submarine_sim/hull_generator.py:59-61 | area strictly increases with a positive diameter |
| Hull.VolumeIsTwoThirdsLengthTimesArea | src/submarine_sim/hull_generator.py:59-66 | volume equals two thirds of length times area for the same dimensions |
| Hull.VolumeIncreasesWithLength | src/submarine_sim/hull_generator.py:63-66 | volume strictly increases with length at a fixed positive diameter |
| Hull.VolumeIncreasesWithDiameter | src/submarine_sim/hull_generator.py:63-66 | volume strictly increases with diameter at a fixed positive length |
| Hull.HullGenerator.constructor | src/submarine_sim/hull_generator.py:21-25 | a fresh generator has length 3.0, diameter 0.5 and fin area 0.08 |
| Hull.HullGenerator.UpdateHull | src/submarine_sim/hull_generator.py:52-55 | sets exactly the three dimensions to the arguments |
| Hull.HullGenerator.GetHydroArea | src/submarine_sim/hull_generator.py:59-61 | the frontal area of the stored diameter, positive when the diameter is |
| Hull.HullGenerator.GetVolume | src/submarine_sim/hull_generator.py:63-66 | two thirds of stored length times stored area, positive when both dimensions are |
| Hull.HullGenerator.GetProperties | src/submarine_sim/hull_generator.py:68-69 | area and volume of the stored dimensions, which satisfy volume = 2/3 L area; reads only |
| Ui.WithMode | src/submarine_sim/ui_controller.py:48-55 | accepts exactly "base" and "real"; on success the mode is set, noise is on exactly in "real" and the emergency flag is kept; otherwise the invalid-mode error |
| Ui.Toggled | src/submarine_sim/ui_controller.py:44-45 | after a toggle the mode is a preset, noise is on exactly in "real", and the emergency flag is kept |
| Ui.ToggleLandsOnPreset | src/submarine_sim/ui_controller.py:41-46 | every toggle changes the mode and lands on a preset: the result is "real" exactly when the start was "base" |
| Ui.ToggleTwiceRestoresMode | src/submarine_sim/ui_controller.py:41-46 | from either preset, two toggles restore the mode, and the whole state when noise was in step |
| Ui.SetModeIdempotent | src/submarine_sim/ui_controller.py:48-55 | setting the same mode twice equals setting it once |
| Ui.RejectedModeChangesNothing | src/submarine_sim/ui_controller.py:51-52 | a rejected mode leaves all three flags unchanged |
| Ui.SetNoiseCanDisagreeWithMode | src/submarine_sim/ui_controller.py:57-60 | switching noise on in base mode keeps the mode and leaves noise out of step with it |
| Ui.EmergencyIdempotent | src/submarine_sim/ui_controller.py:62-65 | the emergency request raises the flag and a second request changes nothing |
| Ui.EmergencyNeverCleared | src/submarine_sim/ui_controller.py:41-65 | no sequence of controller operations lowers a raised emergency flag |
| Ui.ModeStaysValid | src/submarine_sim/ui_controller.py:41-65 | starting from a preset, every sequence of operations leaves the mode a preset |
| Ui.NoiseFollowsModeWithoutSetNoise | src/submarine_sim/ui_controller.py:41-55 | without explicit noise switching, noise stays on exactly in the real preset |
| Ui.UIController.constructor | src/submarine_sim/ui_controller.py:17-27 | mode "base", noise off, no emergency, no application attached |
| Ui.UIController.AttachApp | src/submarine_sim/ui_controller.py:29-32 | the controller now forwards to the given application; flags unchanged |
| Ui.UIController.RequireApp | src/submarine_sim/ui_controller.py:34-39 | fails with the not-attached error exactly when no application is attached, and otherwise returns it |
| Ui.UIController.ToggleEnvironmentMode | src/submarine_sim/ui_controller.py:41-46 | the new flags are the toggle transition of the old ones, and the returned mode is a preset |
| Ui.UIController.SetEnvironmentMode | src/submarine_sim/ui_controller.py:48-55 | succeeds with the mode exactly for a preset; a rejection leaves the flags unchanged |
| Ui.UIController.SetNoiseEnabled | src/submarine_sim/ui_controller.py:57-60 | only the noise flag changes |
| Ui.UIController.TriggerEmergencySurface | src/submarine_sim/ui_controller.py:62-65 | only the emergency flag changes, to raised |
| App.StepSigma | src/submarine_sim/app.py:51 | the case's sigma when noise is on, zero otherwise |
| App.SceneRow | src/submarine_sim/app.py:49-71 | the row carries the active mode; its velocity is the noisy effective velocity under the sigma the noise flag selects (the plain effective velocity with noise off); its drag uses the case's coefficient and the stored area; buoyancy uses the stored volume; the torque pair is the steering feasibility of the case's fin angle, fin offset and motor torque; cavitation uses the case's depth; gm and the stability warning use the case's length and diameter |
| App.SceneRowDeterministicWithNoiseOff | src/submarine_sim/app.py:51-67 | with noise off the logged row does not depend on the draw |
| App.SceneRowVelocityWithNoiseOff | src/submarine_sim/app.py:51-71 | with noise off the logged velocity is speed plus current magnitude, and the row carries the active mode |
| App.SceneRowIgnoresAttitudeAndFinArea | src/submarine_sim/app.py:53-67 | pitch, yaw and fin surface area never change a logged row |
| App.SubmarineApp.constructor | src/submarine_sim/app.py:22-29 | empty log, no case loaded, default hull, gravity 9.81, initial UI flags, controller attached to this application |
| App.SubmarineApp.LoadCase | src/submarine_sim/app.py:31-40 | passes exactly for a complete, in-range, in-envelope case; a parse failure changes nothing; a phase failure keeps the new case loaded and the old hull; a pass sets the hull to the case's dimensions |
| App.SubmarineApp.NextRow | src/submarine_sim/app.py:49-71 | the row a step logs: the scene row of the loaded case, the stored hull's area and volume, and the current UI flags |
| App.SubmarineApp.UpdateScene | src/submarine_sim/app.py:42-73 | with no case, fails and logs nothing; otherwise appends exactly the next row at the end and returns it |
| App.SubmarineApp.Run | src/submarine_sim/app.py:75-78 | no rows for a non-positive count; fails and logs nothing when no case is loaded; otherwise returns exactly `steps` rows, row i using draw i, and the log grows by exactly those rows |
| App.ControllerLoadCase | src/submarine_sim/ui_controller.py:67-70 | fails when no application is attached, and otherwise has exactly the application's load effect |
| App.ControllerRun | src/submarine_sim/ui_controller.py:72-75 | fails when no application is attached, and otherwise has exactly the application's run effect |
| App.ReferenceSession | src/submarine_sim/app.py:22-78 | the reference case loads; one step in base mode gives velocity 4, drag in (322.0, 322.1), buoyancy in (3948.6, 3948.7), no cavitation, gm 0.07, no stability warning, required torque 10/35 of the drag and margin 50 minus that |
| App.StaleHullAfterPhaseFailure | src/submarine_sim/app.py:31-40 | after loading a case beyond the depth limit, the load fails, the new case is held, and the hull still has the previous case's length of 4 m, not the default 3 m |

## Left out

- Reading the case file and JSON decoding are file I/O. The model starts from decoded sections.
- A section whose keys do not match its record raises a type error when the record is built. The model folds that into a missing section.
- Writing the CSV report (`save_report` and its controller proxy) is file I/O.
- Mesh generation (`generate_myring_points`, `create_mesh`) uses numpy grids and an Open3D convex hull, which are foreign library calls.
- The Gaussian draw is a parameter, not a random number generator.
- The square root is a parameter tied to the vector by a ghost predicate.
- IEEE-754 rounding is not modelled. For example, 0.2 + 0.03 is exactly 0.23 here.
- Ingestor.PhaseLimitCheck: NaN is not modelled. The `>` comparisons in `validate_constraints` (src/submarine_sim/math_ingestor.py:32, 34) are false for a NaN depth or fin angle, so such a case passes the phase check in the source, while the model passes only cases inside the envelope.
- Ingestor.ParseAndValidate: NaN and infinity are not modelled. The JSON decoder accepts `NaN` and `Infinity`. Every comparison with NaN is false, so the `<= 0.0` and `< 0.0` guards (src/submarine_sim/math_ingestor.py:56-67) let a NaN length, diameter, fin area, velocity, depth or torque through. The chained range checks (:70-73) reject a NaN density or sigma. For such inputs the source accepts a case outside `ValidInput`, which the model's success clause does not allow.
- App.SubmarineApp.Run: the default of 10 steps for `run` (src/submarine_sim/app.py:75) is not modelled; the count is always passed explicitly.
- The engine's unused fields (`water_density`, `current_strength`, `noise_factor`) are dead state.
- The Open3D GUI, the text UI and the runner scripts are presentation and argument handling.
- The source raises exceptions. The model returns error values, one variant per check.
- Physics.SumOfSquares: states only that the sum is non-negative, not that it is zero only for the zero vector.

## Notes on the code

Behaviour of the code worth knowing, modelled as written:

- `load_json` stores the new case (src/submarine_sim/math_ingestor.py:22) before `load_case` calls `validate_constraints` (src/submarine_sim/app.py:34-35). A phase-limit failure therefore leaves the new case loaded and the hull at the previous case's dimensions (`App.StaleHullAfterPhaseFailure`).
- `run(n)` with n <= 0 returns no rows even when nothing is loaded, because the comprehension over `range(n)` never calls `update_scene` (src/submarine_sim/app.py:78).
- The field, phase and no-case failures are all `ValueError` (src/submarine_sim/math_ingestor.py:29-73). The model's error variants only name which check fired.
- In the reference case the drag is 102.5 π, about 322.01 N, and the buoyancy is 10055.25 π / 8, about 3948.68 N.
