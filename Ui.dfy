/**
 * The UI flag state machine (src/submarine_sim/ui_controller.py): the environment
 * mode, the sensor-noise switch and the emergency-surface request, plus the
 * late-bound link to the application the proxies forward to.
 */
module Ui {
  import opened Wrappers

  datatype UiError = InvalidMode(mode: string) | NotAttached

  const BaseMode: string := "base"
  const RealMode: string := "real"

  /** The three flags the UI controls drive. */
  datatype UIState = UIState(environmentMode: string, noiseEnabled: bool, emergencySurface: bool)

  /** A fresh controller: base mode, noise off, no emergency. */
  const InitialState: UIState := UIState(BaseMode, false, false)

  predicate ValidMode(mode: string) {
    mode == BaseMode || mode == RealMode
  }

  /** Mode and noise agree: noise is on exactly in the real preset. */
  predicate NoiseFollowsMode(s: UIState) {
    s.noiseEnabled <==> s.environmentMode == RealMode
  }

  /** `toggle_environment_mode`: base goes to real, anything else to base; noise follows. */
  function Toggled(s: UIState): (t: UIState)
    ensures ValidMode(t.environmentMode) && NoiseFollowsMode(t)
    ensures t.emergencySurface == s.emergencySurface
  {
    var mode := if s.environmentMode == BaseMode then RealMode else BaseMode;
    s.(environmentMode := mode, noiseEnabled := mode == RealMode)
  }

  /** `set_environment_mode`: only the two presets are accepted. */
  function WithMode(s: UIState, mode: string): (r: Result<UIState, UiError>)
    ensures r.Success? <==> ValidMode(mode)
    ensures r.Failure? ==> r.error == InvalidMode(mode)
    ensures r.Success? ==> r.value.environmentMode == mode && NoiseFollowsMode(r.value)
    ensures r.Success? ==> r.value.emergencySurface == s.emergencySurface
  {
    if !ValidMode(mode) then Failure(InvalidMode(mode))
    else Success(s.(environmentMode := mode, noiseEnabled := mode == RealMode))
  }

  /** One call of the controller's flag-changing operations. */
  datatype UiOp = Toggle | SetMode(mode: string) | SetNoise(enabled: bool) | Emergency

  /** The state after one operation; a rejected mode leaves the state as it was. */
  function Apply(s: UIState, op: UiOp): UIState {
    match op
    case Toggle => Toggled(s)
    case SetMode(mode) =>
      (match WithMode(s, mode)
       case Success(t) => t
       case Failure(_) => s)
    case SetNoise(enabled) => s.(noiseEnabled := enabled)
    case Emergency => s.(emergencySurface := true)
  }

  /** The state after a sequence of operations, applied left to right. */
  function ApplyAll(s: UIState, ops: seq<UiOp>): UIState
    decreases |ops|
  {
    if |ops| == 0 then s else ApplyAll(Apply(s, ops[0]), ops[1..])
  }

  /** Every toggle changes the mode: base becomes real, anything else becomes base. */
  lemma ToggleLandsOnPreset(s: UIState)
    ensures ValidMode(Toggled(s).environmentMode)
    ensures Toggled(s).environmentMode != s.environmentMode
    ensures Toggled(s).environmentMode == RealMode <==> s.environmentMode == BaseMode
  {
  }

  /** From either preset, toggling twice restores the mode. */
  lemma ToggleTwiceRestoresMode(s: UIState)
    requires ValidMode(s.environmentMode)
    ensures Toggled(Toggled(s)).environmentMode == s.environmentMode
    ensures NoiseFollowsMode(s) ==> Toggled(Toggled(s)) == s
  {
  }

  /** A second identical `set_environment_mode` changes nothing. */
  lemma SetModeIdempotent(s: UIState, mode: string)
    ensures Apply(Apply(s, SetMode(mode)), SetMode(mode)) == Apply(s, SetMode(mode))
  {
  }

  /** A rejected mode leaves every flag as it was. */
  lemma RejectedModeChangesNothing(s: UIState, mode: string)
    requires !ValidMode(mode)
    ensures Apply(s, SetMode(mode)) == s
  {
  }

  /** `set_noise_enabled` touches only the noise flag, so it can break the mode/noise link. */
  lemma SetNoiseCanDisagreeWithMode()
    ensures !NoiseFollowsMode(Apply(InitialState, SetNoise(true)))
    ensures Apply(InitialState, SetNoise(true)).environmentMode == InitialState.environmentMode
  {
  }

  /** The emergency request is idempotent. */
  lemma EmergencyIdempotent(s: UIState)
    ensures Apply(Apply(s, Emergency), Emergency) == Apply(s, Emergency)
    ensures Apply(s, Emergency).emergencySurface
  {
  }

  /** No sequence of operations clears a raised emergency flag. */
  lemma {:induction false} EmergencyNeverCleared(s: UIState, ops: seq<UiOp>)
    requires s.emergencySurface
    ensures ApplyAll(s, ops).emergencySurface
    decreases |ops|
  {
    if |ops| > 0 {
      var t := Apply(s, ops[0]);
      assert t.emergencySurface;
      EmergencyNeverCleared(t, ops[1..]);
    }
  }

  /** Starting from a preset, the mode stays a preset whatever the operations. */
  lemma {:induction false} ModeStaysValid(s: UIState, ops: seq<UiOp>)
    requires ValidMode(s.environmentMode)
    ensures ValidMode(ApplyAll(s, ops).environmentMode)
    decreases |ops|
  {
    if |ops| > 0 {
      var t := Apply(s, ops[0]);
      assert ValidMode(t.environmentMode);
      ModeStaysValid(t, ops[1..]);
    }
  }

  /** Without `SetNoise`, noise stays on exactly in the real preset. */
  lemma {:induction false} NoiseFollowsModeWithoutSetNoise(s: UIState, ops: seq<UiOp>)
    requires NoiseFollowsMode(s)
    requires forall i :: 0 <= i < |ops| ==> !ops[i].SetNoise?
    ensures NoiseFollowsMode(ApplyAll(s, ops))
    decreases |ops|
  {
    if |ops| > 0 {
      var t := Apply(s, ops[0]);
      assert NoiseFollowsMode(t);
      NoiseFollowsModeWithoutSetNoise(t, ops[1..]);
    }
  }

  /** The public control surface of the UI; `A` is the application it forwards to. */
  class UIController<A> {
    var state: UIState
    var app: Option<A>

    constructor()
      ensures state == InitialState && app == None
    {
      state := InitialState;
      app := None;
    }

    method AttachApp(a: A)
      modifies this
      ensures app == Some(a) && state == old(state)
    {
      app := Some(a);
    }

    /** The attached application, or `NotAttached`. */
    function RequireApp(): (r: Result<A, UiError>)
      reads this
      ensures r.Failure? <==> app.None?
      ensures r.Failure? ==> r.error == NotAttached
      ensures r.Success? ==> app == Some(r.value)
    {
      match app
      case None => Failure(NotAttached)
      case Some(a) => Success(a)
    }

    method ToggleEnvironmentMode() returns (mode: string)
      modifies this
      ensures state == Apply(old(state), Toggle) && app == old(app)
      ensures mode == state.environmentMode && ValidMode(mode)
    {
      var next := if state.environmentMode == BaseMode then RealMode else BaseMode;
      state := state.(environmentMode := next);
      state := state.(noiseEnabled := state.environmentMode == RealMode);
      mode := state.environmentMode;
    }

    method SetEnvironmentMode(mode: string) returns (r: Result<string, UiError>)
      modifies this
      ensures state == Apply(old(state), SetMode(mode)) && app == old(app)
      ensures r.Success? <==> ValidMode(mode)
      ensures r.Success? ==> r.value == mode
      ensures r.Failure? ==> r.error == InvalidMode(mode) && state == old(state)
    {
      if mode != BaseMode && mode != RealMode {
        return Failure(InvalidMode(mode));
      }
      state := state.(environmentMode := mode);
      state := state.(noiseEnabled := mode == RealMode);
      r := Success(state.environmentMode);
    }

    method SetNoiseEnabled(enabled: bool)
      modifies this
      ensures state == Apply(old(state), SetNoise(enabled)) && app == old(app)
    {
      state := state.(noiseEnabled := enabled);
    }

    method TriggerEmergencySurface()
      modifies this
      ensures state == Apply(old(state), Emergency) && app == old(app)
    {
      state := state.(emergencySurface := true);
    }
  }
}
