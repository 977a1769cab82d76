// The device state machine of src/StateMachine.cpp: the device state, the
// federation status kept beside it, validated transitions and error
// escalation. The pure functions on `Snapshot` are the specification; the
// class `StateMachine` holds the same fields and its methods are proved to
// follow those functions. The Arduino clock `millis()` is the `now` parameter.
module StateMachine {

  datatype DeviceState =
    | DeviceInitializing
    | InferenceMode
    | FederationTraining
    | FederationRecovery
    | DeviceError

  datatype FederateStatus =
    | FederateNone
    | FederateSubscribed
    | FederateTraining
    | FederateEnding

  /** Reports tolerated before the device is forced into DeviceError. */
  const MAX_ERROR_COUNT: nat := 3

  /** The device-state transition table; every state may stay where it is. */
  predicate IsValidTransition(from: DeviceState, to: DeviceState)
  {
    from == to ||
    match from
    case DeviceInitializing => to == InferenceMode || to == DeviceError
    case InferenceMode => to == FederationTraining || to == DeviceError
    case FederationTraining => to == InferenceMode || to == FederationRecovery || to == DeviceError
    case FederationRecovery => to == FederationTraining || to == InferenceMode || to == DeviceError
    case DeviceError => to == InferenceMode || to == FederationRecovery
  }

  /** The federation-status transition table; every status may stay. */
  predicate IsValidStatusTransition(from: FederateStatus, to: FederateStatus)
  {
    from == to ||
    match from
    case FederateNone => to == FederateSubscribed
    case FederateSubscribed => to == FederateTraining || to == FederateNone
    case FederateTraining => to == FederateEnding || to == FederateNone
    case FederateEnding => to == FederateSubscribed || to == FederateNone
  }

  /** The fields of one state machine. */
  datatype Snapshot = Snapshot(
    currentState: DeviceState,
    federateStatus: FederateStatus,
    previousState: DeviceState,
    stateEntryTime: nat,
    lastTransitionTime: nat,
    errorCount: nat,
    stateBeforeError: DeviceState)

  /** A requested move and the snapshot after it. */
  datatype Step = Step(accepted: bool, next: Snapshot)

  /** What the constructor builds at time `now`. */
  function Initial(now: nat): (s: Snapshot)
    ensures s.currentState == DeviceInitializing && s.federateStatus == FederateNone
    ensures s.errorCount == 0
  {
    Snapshot(DeviceInitializing, FederateNone, DeviceInitializing, now, now, 0, DeviceInitializing)
  }

  /** `transitionTo`: a move is accepted exactly when the table allows it; a
      refused move changes nothing; an accepted one records the state left,
      stamps both times with `now`, and clears the error count when it leaves
      DeviceError for another state. */
  function Transition(s: Snapshot, to: DeviceState, now: nat): (r: Step)
    ensures r.accepted <==> IsValidTransition(s.currentState, to)
    ensures !r.accepted ==> r.next == s
    ensures r.accepted ==> r.next.currentState == to && r.next.previousState == s.currentState
    ensures r.accepted ==> r.next.stateEntryTime == now && r.next.lastTransitionTime == now
    ensures r.accepted && s.currentState == DeviceError && to != DeviceError ==> r.next.errorCount == 0
    ensures !(s.currentState == DeviceError && to != DeviceError) ==> r.next.errorCount == s.errorCount
    ensures r.next.federateStatus == s.federateStatus && r.next.stateBeforeError == s.stateBeforeError
  {
    if !IsValidTransition(s.currentState, to) then Step(false, s)
    else
      var moved := s.(previousState := s.currentState, currentState := to,
                      lastTransitionTime := now, stateEntryTime := now);
      Step(true, if s.currentState == DeviceError && to != DeviceError then Cleared(moved) else moved)
  }

  /** `setFederateStatus`: accepted exactly when the status table allows it;
      only the status changes. */
  function WithStatus(s: Snapshot, status: FederateStatus): (r: Step)
    ensures r.accepted <==> IsValidStatusTransition(s.federateStatus, status)
    ensures r.next == if r.accepted then s.(federateStatus := status) else s
  {
    if IsValidStatusTransition(s.federateStatus, status) then Step(true, s.(federateStatus := status))
    else Step(false, s)
  }

  /** `clearErrors`. */
  function Cleared(s: Snapshot): (r: Snapshot)
    ensures r.errorCount == 0 && r == s.(errorCount := 0)
  {
    s.(errorCount := 0)
  }

  /** `reportError`: one more error; the state it happened in is remembered
      unless the device is already in DeviceError; from the third error on the
      device is moved to DeviceError. */
  function AfterError(s: Snapshot, now: nat): (r: Snapshot)
    ensures r.errorCount == s.errorCount + 1
    ensures r.stateBeforeError == if s.currentState == DeviceError then s.stateBeforeError else s.currentState
    ensures r.currentState == if s.errorCount + 1 >= MAX_ERROR_COUNT then DeviceError else s.currentState
    ensures r.federateStatus == s.federateStatus
  {
    var counted := s.(errorCount := s.errorCount + 1,
                      stateBeforeError := if s.currentState != DeviceError then s.currentState else s.stateBeforeError);
    if counted.errorCount >= MAX_ERROR_COUNT then Transition(counted, DeviceError, now).next else counted
  }

  predicate IsInferenceAllowed(s: Snapshot)
  {
    s.currentState == InferenceMode && s.federateStatus != FederateTraining
  }

  predicate IsFederationActive(s: Snapshot)
  {
    s.currentState == FederationTraining || s.currentState == FederationRecovery
    || s.federateStatus == FederateTraining
  }

  predicate IsInitialized(s: Snapshot)
  {
    s.currentState != DeviceInitializing
  }

  predicate IsInErrorState(s: Snapshot)
  {
    s.currentState == DeviceError
  }

  predicate CanStartFederation(s: Snapshot)
  {
    s.currentState == InferenceMode && s.federateStatus == FederateSubscribed
  }

  predicate CanStopFederation(s: Snapshot)
  {
    s.currentState == FederationTraining || s.currentState == FederationRecovery
  }

  predicate ShouldRetryAfterError(s: Snapshot)
  {
    s.errorCount < MAX_ERROR_COUNT && s.currentState != DeviceError
  }

  /** Static policies. */
  predicate FederationHasPriority(state: DeviceState)
  {
    state == FederationTraining || state == FederationRecovery
  }

  predicate RequiresModelUnload(state: DeviceState)
  {
    state == FederationTraining
  }

  predicate AllowsSensorOperation(state: DeviceState)
  {
    state != DeviceError
  }

  function StateString(state: DeviceState): string
  {
    match state
    case DeviceInitializing => "DEVICE_INITIALIZING"
    case InferenceMode => "INFERENCE_MODE"
    case FederationTraining => "FEDERATION_TRAINING"
    case FederationRecovery => "FEDERATION_RECOVERY"
    case DeviceError => "DEVICE_ERROR"
  }

  function StatusString(status: FederateStatus): string
  {
    match status
    case FederateNone => "FEDERATE_NONE"
    case FederateSubscribed => "FEDERATE_SUBSCRIBED"
    case FederateTraining => "FEDERATE_TRAINING"
    case FederateEnding => "FEDERATE_ENDING"
  }

  // ---------------------------------------------------------------------
  // Runs of requested transitions and of error reports.

  /** The snapshot after requesting each target in turn at time `now`;
      refused requests are skipped. */
  function Run(s: Snapshot, targets: seq<DeviceState>, now: nat): Snapshot
    decreases |targets|
  {
    if targets == [] then s else Run(Transition(s, targets[0], now).next, targets[1..], now)
  }

  /** `n` error reports in a row. */
  function Errors(s: Snapshot, n: nat, now: nat): Snapshot
    decreases n
  {
    if n == 0 then s else Errors(AfterError(s, now), n - 1, now)
  }

  /** Once the device has left DeviceInitializing, no sequence of requests
      brings it back there. */
  lemma {:induction false} NeverBackToInitializing(s: Snapshot, targets: seq<DeviceState>, now: nat)
    requires IsInitialized(s)
    ensures IsInitialized(Run(s, targets, now))
    decreases |targets|
  {
    if targets != [] {
      NeverBackToInitializing(Transition(s, targets[0], now).next, targets[1..], now);
    }
  }

  /** Every state can be moved to DeviceError, and DeviceError can never
      reach DeviceInitializing again in one step. */
  lemma ErrorAlwaysReachable(state: DeviceState)
    ensures IsValidTransition(state, DeviceError)
    ensures !IsValidTransition(DeviceError, DeviceInitializing)
  {
  }

  /** Inference and federation never run at once. */
  lemma InferenceExcludesFederation(s: Snapshot)
    ensures IsInferenceAllowed(s) ==> !IsFederationActive(s)
    ensures CanStartFederation(s) ==> !CanStopFederation(s)
  {
  }

  /** Error escalation: starting outside DeviceError with `c` errors counted,
      `n` further reports leave the device where it was while fewer than
      three errors have been counted, and put it in DeviceError once the
      count reaches three; the state the errors happened in is remembered. */
  lemma {:induction false} ErrorEscalation(s: Snapshot, n: nat, now: nat)
    requires s.currentState != DeviceError && n >= 1
    ensures Errors(s, n, now).errorCount == s.errorCount + n
    ensures Errors(s, n, now).currentState ==
      if s.errorCount + n >= MAX_ERROR_COUNT then DeviceError else s.currentState
    ensures Errors(s, n, now).stateBeforeError == s.currentState
    decreases n
  {
    var s1 := AfterError(s, now);
    if n > 1 {
      if s1.currentState == DeviceError {
        StaysInError(s1, n - 1, now);
      } else {
        ErrorEscalation(s1, n - 1, now);
      }
    }
  }

  /** Further reports in DeviceError keep the device there and keep
      counting: the count is never cleared from inside DeviceError. */
  lemma {:induction false} StaysInError(s: Snapshot, n: nat, now: nat)
    requires s.currentState == DeviceError
    ensures Errors(s, n, now).currentState == DeviceError
    ensures Errors(s, n, now).errorCount == s.errorCount + n
    ensures Errors(s, n, now).stateBeforeError == s.stateBeforeError
    decreases n
  {
    if n > 0 {
      StaysInError(AfterError(s, now), n - 1, now);
    }
  }

  /** Leaving DeviceError for any state the table allows resets the error
      count, so the device may retry again. */
  lemma RecoveryAllowsRetry(s: Snapshot, to: DeviceState, now: nat)
    requires s.currentState == DeviceError && to != DeviceError
    requires IsValidTransition(DeviceError, to)
    ensures Transition(s, to, now).next.errorCount == 0
    ensures ShouldRetryAfterError(Transition(s, to, now).next)
  {
  }

  /** The scenario of test_statemachine.cpp: start, subscribe, train, refuse
      the move back to initialising, then three errors end in DeviceError. */
  lemma TestScenario(t0: nat, now: nat)
    ensures var s1 := Transition(Initial(t0), InferenceMode, now);
      var s2 := WithStatus(s1.next, FederateSubscribed);
      var s3 := Transition(s2.next, FederationTraining, now);
      var s4 := Transition(s3.next, DeviceInitializing, now);
      var e2 := Errors(s4.next, 2, now);
      s1.accepted && s2.accepted && CanStartFederation(s2.next) && s3.accepted && !s4.accepted
      && ShouldRetryAfterError(e2) && IsInErrorState(AfterError(e2, now))
  {
  }

  // ---------------------------------------------------------------------
  // The state machine object.

  class StateMachine {
    var currentState: DeviceState
    var federateStatus: FederateStatus
    var previousState: DeviceState
    var stateEntryTime: nat
    var lastTransitionTime: nat
    var errorCount: nat
    var stateBeforeError: DeviceState

    function Snap(): Snapshot
      reads this
    {
      Snapshot(currentState, federateStatus, previousState, stateEntryTime,
               lastTransitionTime, errorCount, stateBeforeError)
    }

    constructor (now: nat)
      ensures Snap() == Initial(now)
    {
      currentState := DeviceInitializing;
      federateStatus := FederateNone;
      previousState := DeviceInitializing;
      stateEntryTime := now;
      lastTransitionTime := now;
      errorCount := 0;
      stateBeforeError := DeviceInitializing;
    }

    method TransitionTo(newState: DeviceState, now: nat) returns (ok: bool)
      modifies this
      ensures Step(ok, Snap()) == Transition(old(Snap()), newState, now)
    {
      if !IsValidTransition(currentState, newState) {
        return false;
      }
      previousState := currentState;
      currentState := newState;
      lastTransitionTime := now;
      stateEntryTime := lastTransitionTime;
      if previousState == DeviceError && newState != DeviceError {
        ClearErrors();
      }
      return true;
    }

    method SetFederateStatus(newStatus: FederateStatus) returns (ok: bool)
      modifies this
      ensures Step(ok, Snap()) == WithStatus(old(Snap()), newStatus)
    {
      if !IsValidStatusTransition(federateStatus, newStatus) {
        return false;
      }
      federateStatus := newStatus;
      return true;
    }

    method ReportError(now: nat)
      modifies this
      ensures Snap() == AfterError(old(Snap()), now)
    {
      errorCount := errorCount + 1;
      if currentState != DeviceError {
        stateBeforeError := currentState;
      }
      if errorCount >= MAX_ERROR_COUNT {
        var _ := TransitionTo(DeviceError, now);
      }
    }

    method ClearErrors()
      modifies this
      ensures Snap() == Cleared(old(Snap()))
    {
      errorCount := 0;
    }
  }
}
