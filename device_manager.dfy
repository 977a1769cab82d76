// The orchestration of src/DeviceManager.cpp: boot, the persisted device
// configuration, the MQTT command handlers, the training/sending cycle of
// `processModel`, and the bridge between the legacy federation variables
// (`federateState`, `currentRound`, `newModelState`) and the state machine.
// The flash file system, JSON decoding, the training library and the link
// are outside the model: what they produce arrives as parameters.
module DeviceManager {
  import opened Wrappers
  import opened Types
  import SM = StateMachine
  import MM = ModelManager
  import NM = NetworkManager
  import TC = TaskCoordinator

  // ---------------------------------------------------------------------
  // The configuration file.

  const ROUND_KEY: string := "currentRound"
  const FEDERATE_STATE_KEY: string := "currentFederateState"
  const MODEL_STATE_KEY: string := "newModelState"

  /** The configuration file on flash: absent, not JSON, or a JSON object
      seen through its integer members. */
  datatype StoredFile = Missing | Unparsable | Stored(entries: map<string, int>)

  /** The three legacy values the device keeps across reboots. */
  datatype Persisted = Persisted(round: int, federateState: FederateState, modelState: ModelState)

  predicate WellFormedPersisted(p: Persisted)
  {
    WellFormedFederateState(p.federateState) && WellFormedModelState(p.modelState)
  }

  /** The JSON object `saveDeviceConfig` writes: the round and the two
      states as their integer codes, under three keys. */
  function Entries(p: Persisted): (e: map<string, int>)
    ensures e.Keys == {ROUND_KEY, FEDERATE_STATE_KEY, MODEL_STATE_KEY}
  {
    map[ROUND_KEY := p.round,
        FEDERATE_STATE_KEY := FederateStateCode(p.federateState),
        MODEL_STATE_KEY := ModelStateCode(p.modelState)]
  }

  /** ArduinoJson's `as<int>()`: a missing member reads as 0. */
  function IntAt(entries: map<string, int>, key: string): int
  {
    if key in entries then entries[key] else 0
  }

  /** What `loadDeviceConfig` reads back: each integer cast to its enum. */
  function Decoded(entries: map<string, int>): (p: Persisted)
    ensures WellFormedPersisted(p)
    ensures FederateStateCode(p.federateState) == IntAt(entries, FEDERATE_STATE_KEY)
    ensures ModelStateCode(p.modelState) == IntAt(entries, MODEL_STATE_KEY)
  {
    Persisted(IntAt(entries, ROUND_KEY),
              FederateStateOf(IntAt(entries, FEDERATE_STATE_KEY)),
              ModelStateOf(IntAt(entries, MODEL_STATE_KEY)))
  }

  /** Saving then loading gives back the saved values. */
  lemma SaveLoadRoundTrip(p: Persisted)
    requires WellFormedPersisted(p)
    ensures Decoded(Entries(p)) == p
  {
    CodesRoundTrip(p.modelState, p.federateState);
  }

  /** An empty object, or one without the three keys, loads as round 0 with
      both states at their zero code. */
  lemma MissingKeysLoadAsZero(entries: map<string, int>)
    requires ROUND_KEY !in entries && FEDERATE_STATE_KEY !in entries && MODEL_STATE_KEY !in entries
    ensures Decoded(entries) == Persisted(0, FederateStateNone, ModelIdle)
  {
  }

  /** The boot decision: training resumes from a stored TRAINING or
      STARTING federation state. */
  predicate Resumes(f: FederateState)
  {
    f == FederateStateTraining || f == FederateStateStarting
  }

  // ---------------------------------------------------------------------
  // Commands.

  /** The `config` object of a `federate_start` command. Optional numeric
      members are `None` when absent or of another JSON type. */
  datatype StartConfig = StartConfig(
    layers: seq<nat>,
    actvFunctions: seq<nat>,
    epochs: Option<nat>,
    learningRateOfWeights: Option<real>,
    learningRateOfBiases: Option<real>)

  /** A command document after JSON decoding: `randomSeed` is a top-level
      member, `config` is present only when it is a JSON object. */
  datatype CommandDocument =
    | UnparsableCommand
    | CommandDocument(command: Option<string>, config: Option<StartConfig>, randomSeed: Option<nat>)

  const JOIN_COMMAND: string := "federate_join"
  const START_COMMAND: string := "federate_start"
  const END_COMMAND: string := "federate_end"
  const UNSUBSCRIBE_COMMAND: string := "federate_unsubscribe"
  const ALIVE_COMMAND: string := "federate_alive"
  const SUBSCRIBE_COMMAND: string := "federate_subscribe"

  /** The federation configuration built from a start command: the
      configured widths and activations, and each optional member where
      present, the constructor's default otherwise. */
  function FederateModelConfig(c: StartConfig, seed: Option<nat>): (m: ModelConfig)
    ensures m.layers == c.layers && m.actvFunctions == c.actvFunctions
    ensures m.randomSeed == (if seed.Some? then seed.value else 10)
    ensures m.epochs == (if c.epochs.Some? then c.epochs.value else 1)
    ensures m.learningRateOfWeights == (if c.learningRateOfWeights.Some? then c.learningRateOfWeights.value else 0.3333)
    ensures m.learningRateOfBiases == (if c.learningRateOfBiases.Some? then c.learningRateOfBiases.value else 0.0666)
  {
    var base := NewModelConfig(c.layers, c.actvFunctions);
    base.(randomSeed := seed.GetOr(base.randomSeed),
          epochs := c.epochs.GetOr(base.epochs),
          learningRateOfWeights := c.learningRateOfWeights.GetOr(base.learningRateOfWeights),
          learningRateOfBiases := c.learningRateOfBiases.GetOr(base.learningRateOfBiases))
  }

  /** A configuration the network library can build: an input and an
      output layer at least, no layer empty. */
  predicate Buildable(c: ModelConfig)
  {
    |c.layers| >= 2 && forall i :: 0 <= i < |c.layers| ==> c.layers[i] >= 1
  }

  // ---------------------------------------------------------------------
  // The state machine as the handlers drive it.

  /** `startFederationTraining` once `canStartFederation` holds. */
  function Started(s: SM.Snapshot, now: nat): SM.Snapshot
  {
    SM.WithStatus(SM.Transition(s, SM.FederationTraining, now).next, SM.FederateTraining).next
  }

  lemma StartedTrains(s: SM.Snapshot, now: nat)
    requires SM.CanStartFederation(s)
    ensures var t := Started(s, now);
      && t.currentState == SM.FederationTraining && t.federateStatus == SM.FederateTraining
      && t.previousState == SM.InferenceMode && t.errorCount == s.errorCount
      && SM.IsFederationActive(t) && SM.CanStopFederation(t) && !SM.IsInferenceAllowed(t)
  {
  }

  /** `stopFederationTraining` once `canStopFederation` holds. */
  function Stopped(s: SM.Snapshot, now: nat): SM.Snapshot
  {
    SM.WithStatus(SM.Transition(s, SM.InferenceMode, now).next, SM.FederateNone).next
  }

  lemma StoppedAllowsInference(s: SM.Snapshot, now: nat)
    requires SM.CanStopFederation(s)
    ensures var t := Stopped(s, now);
      && t.currentState == SM.InferenceMode && t.federateStatus == SM.FederateNone
      && SM.IsInferenceAllowed(t) && !SM.IsFederationActive(t) && SM.CanStartFederation(t) == false
  {
  }

  /** `resetFederationState`: status None, and out of the federation
      states into inference. */
  function Reset(s: SM.Snapshot, now: nat): SM.Snapshot
  {
    var cleared := SM.WithStatus(s, SM.FederateNone).next;
    if cleared.currentState == SM.FederationTraining || cleared.currentState == SM.FederationRecovery
    then SM.Transition(cleared, SM.InferenceMode, now).next
    else cleared
  }

  /** After a reset the device no longer federates, whatever it did before. */
  lemma ResetEndsFederation(s: SM.Snapshot, now: nat)
    ensures var t := Reset(s, now);
      && t.federateStatus == SM.FederateNone
      && t.currentState != SM.FederationTraining && t.currentState != SM.FederationRecovery
      && !SM.IsFederationActive(t) && !SM.CanStopFederation(t)
      && (SM.FederationHasPriority(s.currentState) ==> SM.IsInferenceAllowed(t))
  {
    var cleared := SM.WithStatus(s, SM.FederateNone).next;
    assert SM.IsValidStatusTransition(s.federateStatus, SM.FederateNone);
    assert cleared.currentState == s.currentState;
  }

  /** `updateDeviceState`: the state machine brought in line with the
      legacy federation state. */
  function Synced(s: SM.Snapshot, f: FederateState, now: nat): SM.Snapshot
  {
    if Resumes(f) then
      if s.currentState != SM.FederationTraining
      then SM.WithStatus(SM.Transition(s, SM.FederationTraining, now).next, SM.FederateTraining).next
      else s
    else if f == FederateStateSubscribed || f == FederateStateNone then
      var left := if s.currentState == SM.FederationTraining then SM.Transition(s, SM.InferenceMode, now).next else s;
      SM.WithStatus(left, if f == FederateStateSubscribed then SM.FederateSubscribed else SM.FederateNone).next
    else s
  }

  /** Syncing twice is syncing once. */
  lemma SyncedIdempotent(s: SM.Snapshot, f: FederateState, now: nat)
    ensures Synced(Synced(s, f, now), f, now) == Synced(s, f, now)
  {
  }

  /** A device resuming training after a reboot enters FederationTraining
      from inference, but its status stays None: None to Training is not
      an allowed status step. */
  lemma ResumeKeepsStatusNone(s: SM.Snapshot, f: FederateState, now: nat)
    requires s.currentState == SM.InferenceMode && s.federateStatus == SM.FederateNone && Resumes(f)
    ensures Synced(s, f, now).currentState == SM.FederationTraining
    ensures Synced(s, f, now).federateStatus == SM.FederateNone
    ensures SM.IsFederationActive(Synced(s, f, now))
  {
  }

  /** A freshly booted device (inference, status None) cannot start a
      federation; only the status sync of a reboot with SUBSCRIBED stored
      makes a start possible. `federate_join` does not touch the status. */
  lemma StartNeedsSubscribedStatus(t0: nat, now: nat)
    ensures var booted := SM.Transition(SM.Initial(t0), SM.InferenceMode, now).next;
      && !SM.CanStartFederation(booted)
      && SM.CanStartFederation(Synced(booted, FederateStateSubscribed, now))
  {
  }

  // ---------------------------------------------------------------------
  // The task coordinator as the handlers re-gate it.

  /** `transitionToState` on the coordinator: an accepted move re-gates the
      tasks in the new snapshot; a refused one leaves them alone. */
  function RegatedIf(g: TC.Gating, step: SM.Step, now: nat): TC.Gating
  {
    if step.accepted then TC.Regated(g, step.next, now) else g
  }

  /** `startFederationTraining` on the coordinator: when the state machine
      can start, the move to training runs the federation task, suspends
      inference and queues the training state with the status it still
      has (the status changes after the re-gate); otherwise untouched. */
  function StartGating(g: TC.Gating, s: SM.Snapshot, now: nat): (r: TC.Gating)
    ensures !SM.CanStartFederation(s) ==> r == g
    ensures SM.CanStartFederation(s) ==>
      && (r.inference.Some? <==> g.inference.Some?) && (r.federation.Some? <==> g.federation.Some?)
      && !TC.Running(r.inference)
      && (g.federation.Some? ==> TC.Running(r.federation))
      && (g.stateQueue.Some? && |g.stateQueue.value.items| < TC.QUEUE_SIZE ==>
            r.stateQueue == Some(TC.Queue(g.stateQueue.value.items + [TC.StateUpdateMessage(SM.FederationTraining, s.federateStatus, now)])))
  {
    if SM.CanStartFederation(s) then TC.Regated(g, SM.Transition(s, SM.FederationTraining, now).next, now) else g
  }

  /** `stopFederationTraining` on the coordinator: when the state machine
      can stop, the move back to inference runs inference, suspends the
      federation task and queues inference mode; otherwise untouched. */
  function StopGating(g: TC.Gating, s: SM.Snapshot, now: nat): (r: TC.Gating)
    ensures !SM.CanStopFederation(s) ==> r == g
    ensures SM.CanStopFederation(s) ==>
      && (r.inference.Some? <==> g.inference.Some?) && (r.federation.Some? <==> g.federation.Some?)
      && !TC.Running(r.federation)
      && (g.inference.Some? ==> TC.Running(r.inference))
      && (g.stateQueue.Some? && |g.stateQueue.value.items| < TC.QUEUE_SIZE ==>
            r.stateQueue == Some(TC.Queue(g.stateQueue.value.items + [TC.StateUpdateMessage(SM.InferenceMode, s.federateStatus, now)])))
  {
    if SM.CanStopFederation(s) then TC.Regated(g, SM.Transition(s, SM.InferenceMode, now).next, now) else g
  }

  /** `resetFederationState` on the coordinator: re-gated in the reset
      snapshot when the reset leaves a federation state, untouched
      otherwise. */
  function ResetGating(g: TC.Gating, s: SM.Snapshot, now: nat): (r: TC.Gating)
    ensures !SM.CanStopFederation(s) ==> r == g
    ensures SM.CanStopFederation(s) ==>
      && (r.inference.Some? <==> g.inference.Some?) && (r.federation.Some? <==> g.federation.Some?)
      && !TC.Running(r.federation)
      && (g.inference.Some? ==> TC.Running(r.inference))
      && (g.stateQueue.Some? && |g.stateQueue.value.items| < TC.QUEUE_SIZE ==>
            r.stateQueue == Some(TC.Queue(g.stateQueue.value.items + [TC.StateUpdateMessage(SM.InferenceMode, SM.FederateNone, now)])))
  {
    if s.currentState == SM.FederationTraining || s.currentState == SM.FederationRecovery
    then
      ResetEndsFederation(s, now);
      TC.Regated(g, Reset(s, now), now)
    else g
  }

  /** `updateDeviceState` on the coordinator: the re-gate of the move it
      makes, when the move is accepted, then the closing re-gate in the
      synced snapshot. */
  function SyncedGating(g: TC.Gating, s: SM.Snapshot, f: FederateState, now: nat): TC.Gating
  {
    TC.Regated(SyncMoveGating(g, s, f, now), Synced(s, f, now), now)
  }

  /** The coordinator after the move of `updateDeviceState`, before its
      closing re-gate. */
  function SyncMoveGating(g: TC.Gating, s: SM.Snapshot, f: FederateState, now: nat): TC.Gating
  {
    if Resumes(f) && s.currentState != SM.FederationTraining
    then RegatedIf(g, SM.Transition(s, SM.FederationTraining, now), now)
    else if (f == FederateStateSubscribed || f == FederateStateNone) && s.currentState == SM.FederationTraining
    then RegatedIf(g, SM.Transition(s, SM.InferenceMode, now), now)
    else g
  }

  /** After `updateDeviceState` the tasks that exist run exactly as the
      synced state allows, whatever they did before and whatever move was
      made on the way. */
  lemma SyncedGatingFollowsState(g: TC.Gating, s: SM.Snapshot, f: FederateState, now: nat)
    ensures var r := SyncedGating(g, s, f, now);
      var t := Synced(s, f, now);
      && (g.inference.Some? ==> (TC.Running(r.inference) <==> t.currentState == SM.InferenceMode))
      && (g.federation.Some? ==> (TC.Running(r.federation) ==> SM.IsFederationActive(t)))
      && !(TC.Running(r.inference) && TC.Running(r.federation))
  {
    var moved := SyncMoveGating(g, s, f, now);
    if moved != g {
      var step := if Resumes(f) then SM.Transition(s, SM.FederationTraining, now) else SM.Transition(s, SM.InferenceMode, now);
      TC.RegatedFollowsState(g, step.next, now);
    }
    TC.RegatedFollowsState(moved, Synced(s, f, now), now);
  }

  /** MQTT at the end of boot's two connection steps: `setupMQTT`, which
      waits for Wi-Fi and tries the broker on its own link schedule, then
      `ensureConnected` on the next schedule. */
  predicate BootMqtt(setupLink: NM.LinkOutcome, ensureLink: NM.LinkOutcome)
    requires setupLink.Complete() && ensureLink.Complete()
  {
    NM.MqttAfter(true, NM.FirstSuccess(setupLink.mqttAttempts, 0) < NM.MAX_MQTT_RETRIES, ensureLink)
  }

  /** The connection steps of `bootUp` on a new network manager, each on its
      own link schedule: `setupMQTT`, `ensureConnected`, then RESUME when
      resuming. */
  method ConnectAtBoot(network: NM.NetworkManager, resume: bool, round: int, state: ModelState,
                       setupLink: NM.LinkOutcome, ensureLink: NM.LinkOutcome, sendLink: NM.LinkOutcome)
    requires setupLink.Complete() && ensureLink.Complete() && sendLink.Complete()
    requires !network.sendingMessage && network.published == []
    modifies network
    ensures network.wifiConnected && !network.sendingMessage
    ensures network.mqttConnected ==
      if resume then NM.MqttAfter(true, BootMqtt(setupLink, ensureLink), sendLink) else BootMqtt(setupLink, ensureLink)
    ensures network.published ==
      if resume && NM.Restored(true, BootMqtt(setupLink, ensureLink), sendLink)
      then NM.CommandPublications(NM.EnvelopeFor(Resume, network.clientName, round, state))
      else []
  {
    var _ := network.SetupMQTT(setupLink);
    var _ := network.EnsureConnected(ensureLink);
    if resume {
      network.SendMessageToNetwork(Resume, round, state, sendLink);
    }
  }

  /** The coordinator `startTaskCoordinator` builds over `stateMachine`:
      initialised and its tasks started, or none (after a shutdown) when a
      mutex, a queue or a task cannot be created. */
  method NewCoordinator(stateMachine: SM.StateMachine, mutexCreated: seq<bool>, queueCreated: seq<bool>,
                        spawned: seq<bool>) returns (c: TC.TaskCoordinator?)
    requires |mutexCreated| == 3 && |queueCreated| == 4 && |spawned| == 4
    ensures c != null <==>
      && (forall i :: 0 <= i < 3 ==> mutexCreated[i]) && (forall i :: 0 <= i < 4 ==> queueCreated[i])
      && (forall i :: 0 <= i < 4 ==> spawned[i])
    ensures c != null ==> fresh(c) && c.Valid() && c.stateMachine == stateMachine
    ensures c != null ==> c.tasksCreated && c.coordinatorRunning && c.Gates() == TC.FreshGating
  {
    c := new TC.TaskCoordinator(stateMachine);
    var ok := c.Initialize(mutexCreated, queueCreated);
    if !ok {
      return null;
    }
    ok := c.StartTasks(spawned);
    if !ok {
      c.Shutdown();
      return null;
    }
  }

  /** The training outcome handed back by the training routine. */
  datatype TrainingRun = TrainingRun(filesOpen: bool, trained: seq<Layer>, samples: nat, elapsed: nat,
                                     meanSqrdError: real)

  class DeviceManager {
    const stateMachine: SM.StateMachine
    const modelManager: MM.ModelManager
    var networkManager: NM.NetworkManager?
    var taskCoordinator: TC.TaskCoordinator?
    var deviceConfig: DeviceConfig?
    var clientName: Option<string>

    var federateState: FederateState
    var newModelState: ModelState
    var currentRound: int

    /** Telemetry forwarded with every model; never updated after construction. */
    const previousTransmit: nat
    const previousConstruct: nat

    /** The configuration file, and whether flash accepts writes. */
    var flash: StoredFile
    const flashWritable: bool

    ghost predicate Valid()
      reads this, modelManager, networkManager, taskCoordinator
    {
      && modelManager.Valid()
      && (modelManager.newModelMetrics.Some? ==> |modelManager.newModelMetrics.value.metrics| >= 1)
      && WellFormedPersisted(LegacyState())
      && (networkManager != null ==> !networkManager.sendingMessage)
      && (taskCoordinator != null ==> taskCoordinator.Valid() && taskCoordinator.stateMachine == stateMachine)
    }

    /** The task coordinator, when there is one, as a frame. */
    function Coordinator(): set<TC.TaskCoordinator>
      reads this
    {
      if taskCoordinator != null then {taskCoordinator} else {}
    }

    function LegacyState(): Persisted
      reads this
    {
      Persisted(currentRound, federateState, newModelState)
    }

    /** The constructor: no network, configuration or coordinator yet, a
        fresh state machine and model manager, legacy state at its
        defaults. */
    constructor (now: nat, flash: StoredFile, flashWritable: bool)
      ensures Valid()
      ensures fresh(stateMachine) && fresh(modelManager)
      ensures stateMachine.Snap() == SM.Initial(now)
      ensures networkManager == null && taskCoordinator == null && deviceConfig == null && clientName == None
      ensures LegacyState() == Persisted(-1, FederateStateNone, ModelIdle)
      ensures previousTransmit == 0 && previousConstruct == 0
      ensures this.flash == flash && this.flashWritable == flashWritable
    {
      deviceConfig := null;
      clientName := None;
      modelManager := new MM.ModelManager();
      networkManager := null;
      stateMachine := new SM.StateMachine(now);
      taskCoordinator := null;
      newModelState := ModelIdle;
      federateState := FederateStateNone;
      currentRound := -1;
      previousTransmit := 0;
      previousConstruct := 0;
      this.flash := flash;
      this.flashWritable := flashWritable;
    }

    // -------------------------------------------------------------------
    // Configuration file.

    /** `saveDeviceConfig`: copy the legacy values into the configuration
        record, creating it on first use, and write them to flash. */
    method SaveDeviceConfig() returns (ok: bool)
      modifies this`deviceConfig, this`flash, deviceConfig
      ensures ok == flashWritable
      ensures deviceConfig != null
      ensures old(deviceConfig) == null ==> fresh(deviceConfig)
      ensures old(deviceConfig) != null ==> deviceConfig == old(deviceConfig)
      ensures deviceConfig.currentRound == currentRound
      ensures deviceConfig.currentFederateState == federateState
      ensures deviceConfig.newModelState == newModelState
      ensures flash == if flashWritable then Stored(Entries(LegacyState())) else old(flash)
    {
      if deviceConfig == null {
        deviceConfig := new DeviceConfig();
      }
      deviceConfig.currentRound := currentRound;
      deviceConfig.currentFederateState := federateState;
      deviceConfig.newModelState := newModelState;
      if !flashWritable {
        return false;
      }
      flash := Stored(Entries(Persisted(deviceConfig.currentRound, deviceConfig.currentFederateState,
                                        deviceConfig.newModelState)));
      ok := true;
    }

    /** `loadDeviceConfig`: a missing or unparsable file is an error and
        leaves everything as it was; otherwise a new configuration record
        holds the three decoded values and no federation configuration. */
    method LoadDeviceConfig() returns (ok: bool)
      modifies this`deviceConfig
      ensures ok <==> flash.Stored?
      ensures !ok ==> deviceConfig == old(deviceConfig)
      ensures ok ==> fresh(deviceConfig)
      ensures ok ==> Persisted(deviceConfig.currentRound, deviceConfig.currentFederateState,
                               deviceConfig.newModelState) == Decoded(flash.entries)
      ensures ok ==> deviceConfig.currentModelMetrics == None && deviceConfig.loadedFederateModelConfig == None
    {
      match flash {
        case Missing =>
          return false;
        case Unparsable =>
          return false;
        case Stored(entries) =>
          var config := new DeviceConfig();
          config.currentRound := IntAt(entries, ROUND_KEY);
          config.currentFederateState := FederateStateOf(IntAt(entries, FEDERATE_STATE_KEY));
          config.newModelState := ModelStateOf(IntAt(entries, MODEL_STATE_KEY));
          deviceConfig := config;
          return true;
      }
    }

    // -------------------------------------------------------------------
    // State machine bridge.

    /** `transitionToState`: a move of the state machine; an accepted one
        also re-gates the tasks. */
    method TransitionToState(newState: SM.DeviceState, now: nat) returns (ok: bool)
      requires Valid()
      modifies stateMachine
      modifies Coordinator()`inferenceTask, Coordinator()`federationTask, Coordinator()`stateUpdateQueue
      ensures Valid()
      ensures SM.Step(ok, stateMachine.Snap()) == SM.Transition(old(stateMachine.Snap()), newState, now)
      ensures taskCoordinator != null ==>
        taskCoordinator.Gates() == RegatedIf(old(taskCoordinator.Gates()), SM.Transition(old(stateMachine.Snap()), newState, now), now)
    {
      ok := stateMachine.TransitionTo(newState, now);
      if ok && taskCoordinator != null {
        taskCoordinator.UpdateTaskStates(now);
      }
    }

    /** `updateFederationStatus`. */
    method UpdateFederationStatus(newStatus: SM.FederateStatus) returns (ok: bool)
      modifies stateMachine
      ensures SM.Step(ok, stateMachine.Snap()) == SM.WithStatus(old(stateMachine.Snap()), newStatus)
    {
      ok := stateMachine.SetFederateStatus(newStatus);
    }

    /** `startFederationTraining`: refused with no change unless the state
        machine can start; then it is training with status Training, and
        the legacy state says TRAINING. */
    method StartFederationTraining(now: nat) returns (ok: bool)
      requires Valid()
      modifies this`federateState, stateMachine
      modifies Coordinator()`inferenceTask, Coordinator()`federationTask, Coordinator()`stateUpdateQueue
      ensures Valid()
      ensures ok <==> SM.CanStartFederation(old(stateMachine.Snap()))
      ensures !ok ==> stateMachine.Snap() == old(stateMachine.Snap()) && federateState == old(federateState)
      ensures ok ==> stateMachine.Snap() == Started(old(stateMachine.Snap()), now)
      ensures ok ==> federateState == FederateStateTraining
      ensures taskCoordinator != null ==>
        taskCoordinator.Gates() == StartGating(old(taskCoordinator.Gates()), old(stateMachine.Snap()), now)
    {
      if !SM.CanStartFederation(stateMachine.Snap()) {
        return false;
      }
      var moved := TransitionToState(SM.FederationTraining, now);
      // InferenceMode to FederationTraining is always allowed
      assert moved;
      var updated := UpdateFederationStatus(SM.FederateTraining);
      // and so is Subscribed to Training
      assert updated;
      federateState := FederateStateTraining;
      ok := true;
    }

    /** `stopFederationTraining`: refused with no change unless the state
        machine can stop; then it is back in inference with status None,
        and the legacy state says NONE. */
    method StopFederationTraining(now: nat) returns (ok: bool)
      requires Valid()
      modifies this`federateState, stateMachine
      modifies Coordinator()`inferenceTask, Coordinator()`federationTask, Coordinator()`stateUpdateQueue
      ensures Valid()
      ensures ok <==> SM.CanStopFederation(old(stateMachine.Snap()))
      ensures !ok ==> stateMachine.Snap() == old(stateMachine.Snap()) && federateState == old(federateState)
      ensures ok ==> stateMachine.Snap() == Stopped(old(stateMachine.Snap()), now)
      ensures ok ==> federateState == FederateStateNone
      ensures taskCoordinator != null ==>
        taskCoordinator.Gates() == StopGating(old(taskCoordinator.Gates()), old(stateMachine.Snap()), now)
    {
      if !SM.CanStopFederation(stateMachine.Snap()) {
        return false;
      }
      var moved := TransitionToState(SM.InferenceMode, now);
      // both federation states may return to inference
      assert moved;
      var updated := UpdateFederationStatus(SM.FederateNone);
      // and every status may drop to None
      assert updated;
      federateState := FederateStateNone;
      ok := true;
    }

    /** `resetFederationState`: legacy values back to their defaults and the
        state machine out of the federation. */
    method ResetFederationState(now: nat)
      requires Valid()
      modifies this`federateState, this`currentRound, this`newModelState, stateMachine
      modifies Coordinator()`inferenceTask, Coordinator()`federationTask, Coordinator()`stateUpdateQueue
      ensures Valid()
      ensures LegacyState() == Persisted(-1, FederateStateNone, ModelIdle)
      ensures stateMachine.Snap() == Reset(old(stateMachine.Snap()), now)
      ensures taskCoordinator != null ==>
        taskCoordinator.Gates() == ResetGating(old(taskCoordinator.Gates()), old(stateMachine.Snap()), now)
    {
      var _ := UpdateFederationStatus(SM.FederateNone);
      federateState := FederateStateNone;
      currentRound := -1;
      newModelState := ModelIdle;
      if stateMachine.currentState == SM.FederationTraining || stateMachine.currentState == SM.FederationRecovery {
        var _ := TransitionToState(SM.InferenceMode, now);
      }
    }

    /** `updateDeviceState`: move the state machine to match the legacy
        federation state, then re-gate the tasks. */
    method UpdateDeviceState(now: nat)
      requires Valid()
      modifies stateMachine
      modifies Coordinator()`inferenceTask, Coordinator()`federationTask, Coordinator()`stateUpdateQueue
      ensures Valid()
      ensures stateMachine.Snap() == Synced(old(stateMachine.Snap()), federateState, now)
      ensures taskCoordinator != null ==>
        taskCoordinator.Gates() == SyncedGating(old(taskCoordinator.Gates()), old(stateMachine.Snap()), federateState, now)
    {
      SyncStateMachine(now);
      if taskCoordinator != null {
        taskCoordinator.UpdateTaskStates(now);
      }
    }

    /** The moves of `updateDeviceState` before its closing re-gate. */
    method SyncStateMachine(now: nat)
      requires Valid()
      modifies stateMachine
      modifies Coordinator()`inferenceTask, Coordinator()`federationTask, Coordinator()`stateUpdateQueue
      ensures Valid()
      ensures stateMachine.Snap() == Synced(old(stateMachine.Snap()), federateState, now)
      ensures taskCoordinator != null ==>
        taskCoordinator.Gates() == SyncMoveGating(old(taskCoordinator.Gates()), old(stateMachine.Snap()), federateState, now)
    {
      if federateState == FederateStateTraining || federateState == FederateStateStarting {
        if stateMachine.currentState != SM.FederationTraining {
          var _ := TransitionToState(SM.FederationTraining, now);
          var _ := UpdateFederationStatus(SM.FederateTraining);
        }
      } else if federateState == FederateStateSubscribed {
        if stateMachine.currentState == SM.FederationTraining {
          var _ := TransitionToState(SM.InferenceMode, now);
        }
        var _ := UpdateFederationStatus(SM.FederateSubscribed);
      } else if federateState == FederateStateNone {
        if stateMachine.currentState == SM.FederationTraining {
          var _ := TransitionToState(SM.InferenceMode, now);
        }
        var _ := UpdateFederationStatus(SM.FederateNone);
      }
    }

    /** `handleFederationCommand`: the state-machine-only command path. */
    method HandleFederationCommand(command: string, now: nat) returns (ok: bool)
      requires Valid()
      modifies this`federateState, stateMachine
      modifies Coordinator()`inferenceTask, Coordinator()`federationTask, Coordinator()`stateUpdateQueue
      ensures Valid()
      ensures command == SUBSCRIBE_COMMAND ==>
        && (ok <==> old(stateMachine.currentState) == SM.InferenceMode)
        && (ok ==> federateState == FederateStateSubscribed
                   && stateMachine.Snap() == SM.WithStatus(old(stateMachine.Snap()), SM.FederateSubscribed).next)
        && (!ok ==> federateState == old(federateState) && stateMachine.Snap() == old(stateMachine.Snap()))
      ensures command == START_COMMAND ==>
        && (ok <==> SM.CanStartFederation(old(stateMachine.Snap())))
        && (ok ==> federateState == FederateStateTraining
                   && stateMachine.Snap() == Started(old(stateMachine.Snap()), now))
        && (!ok ==> federateState == old(federateState) && stateMachine.Snap() == old(stateMachine.Snap()))
      ensures command == END_COMMAND ==>
        ok && federateState == FederateStateDone
        && stateMachine.Snap() == SM.WithStatus(old(stateMachine.Snap()), SM.FederateEnding).next
      ensures command == UNSUBSCRIBE_COMMAND ==>
        && (ok <==> SM.CanStopFederation(old(stateMachine.Snap())))
        && (ok ==> federateState == FederateStateNone
                   && stateMachine.Snap() == Stopped(old(stateMachine.Snap()), now))
        && (!ok ==> federateState == old(federateState) && stateMachine.Snap() == old(stateMachine.Snap()))
      ensures command !in {SUBSCRIBE_COMMAND, START_COMMAND, END_COMMAND, UNSUBSCRIBE_COMMAND} ==>
        !ok && federateState == old(federateState) && stateMachine.Snap() == old(stateMachine.Snap())
      ensures taskCoordinator != null ==>
        taskCoordinator.Gates() ==
          if command == START_COMMAND then StartGating(old(taskCoordinator.Gates()), old(stateMachine.Snap()), now)
          else if command == UNSUBSCRIBE_COMMAND then StopGating(old(taskCoordinator.Gates()), old(stateMachine.Snap()), now)
          else old(taskCoordinator.Gates())
    {
      if command == SUBSCRIBE_COMMAND {
        if stateMachine.currentState == SM.InferenceMode {
          var _ := UpdateFederationStatus(SM.FederateSubscribed);
          federateState := FederateStateSubscribed;
          return true;
        }
        return false;
      } else if command == START_COMMAND {
        ok := StartFederationTraining(now);
      } else if command == END_COMMAND {
        var _ := UpdateFederationStatus(SM.FederateEnding);
        federateState := FederateStateDone;
        return true;
      } else if command == UNSUBSCRIBE_COMMAND {
        ok := StopFederationTraining(now);
      } else {
        return false;
      }
    }

    // -------------------------------------------------------------------
    // Training cycle.

    /** The training step of `processModel` applies. */
    ghost predicate Trains()
      reads this, stateMachine, modelManager
    {
      SM.IsFederationActive(stateMachine.Snap()) && newModelState == ReadyToTrain && modelManager.newModel.Some?
    }

    /** The sending step of `processModel` applies. */
    ghost predicate Sends()
      reads this, stateMachine, modelManager
    {
      SM.IsFederationActive(stateMachine.Snap()) && newModelState == DoneTraining
      && modelManager.newModel.Some? && modelManager.newModelMetrics.Some?
    }

    /** `processModel`: while the federation is active, train a ready model
        (READY_TO_TRAIN to DONE_TRAINING), or send a trained one with its
        metrics (DONE_TRAINING to WAITING_DOWNLOAD, status Ending), saving
        the configuration after either; nothing otherwise. */
    method ProcessModel(run: TrainingRun, width: FloatWidth, stagedInFlash: bool, link: NM.LinkOutcome)
      requires Valid() && link.Complete() && networkManager != null
      requires modelManager.newModel.Some? ==> SameShape(modelManager.newModel.value.layers, run.trained)
      modifies this`newModelState, this`deviceConfig, this`flash, deviceConfig
      modifies modelManager, networkManager, stateMachine
      ensures Valid()
      ensures currentRound == old(currentRound) && federateState == old(federateState)
      ensures old(Trains()) ==>
        && newModelState == DoneTraining
        && modelManager.newModelMetrics ==
             (if run.filesOpen
              then Some(MM.FreshTrainingMetrics(run.trained[|run.trained| - 1].outputs, run.meanSqrdError,
                                                run.elapsed, old(modelManager.federateModelConfig).value.epochs))
              else None)
        && stateMachine.Snap() == old(stateMachine.Snap())
        && networkManager.published == old(networkManager.published)
      ensures old(Sends()) ==>
        && newModelState == WaitingDownload
        && stateMachine.Snap() == SM.WithStatus(old(stateMachine.Snap()), SM.FederateEnding).next
        && modelManager.newModel == old(modelManager.newModel)
        && networkManager.published == old(networkManager.published)
             + (if NM.Restored(old(networkManager.wifiConnected), old(networkManager.mqttConnected), link)
                then (if stagedInFlash
                      then [NM.RawModelPublication(NM.MQTT_RAW_PUBLISH_TOPIC + "/" + networkManager.clientName)]
                      else [])
                     + [NM.ModelPublication(NM.MQTT_PUBLISH_TOPIC,
                          NM.ModelMessageFor(width, networkManager.clientName, old(modelManager.newModel).value,
                                             old(modelManager.newModelMetrics).value, old(modelManager.datasetSize),
                                             previousTransmit, previousConstruct))]
                else [])
      ensures old(Trains()) || old(Sends()) ==>
        flash == if flashWritable then Stored(Entries(LegacyState())) else old(flash)
      ensures !old(Trains()) && !old(Sends()) ==>
        && newModelState == old(newModelState) && flash == old(flash)
        && stateMachine.Snap() == old(stateMachine.Snap())
        && modelManager.newModel == old(modelManager.newModel)
        && modelManager.newModelMetrics == old(modelManager.newModelMetrics)
        && networkManager.published == old(networkManager.published)
    {
      if !SM.IsFederationActive(stateMachine.Snap()) {
        return;
      }
      match newModelState {
        case ReadyToTrain =>
          if modelManager.newModel.Some? {
            TrainReadyModel(run);
          }
        case DoneTraining =>
          if modelManager.newModel.Some? && modelManager.newModelMetrics.Some? {
            SendTrainedModel(width, stagedInFlash, link);
          }
        case _ =>
      }
    }

    /** The READY_TO_TRAIN step of `processModel`: train the new model on
        the local dataset, keep its metrics, mark it trained and save. */
    method TrainReadyModel(run: TrainingRun)
      requires Valid() && modelManager.newModel.Some?
      requires SameShape(modelManager.newModel.value.layers, run.trained)
      modifies this`newModelState, this`deviceConfig, this`flash, deviceConfig, modelManager
      ensures Valid()
      ensures newModelState == DoneTraining
      ensures modelManager.newModelMetrics ==
        (if run.filesOpen
         then Some(MM.FreshTrainingMetrics(run.trained[|run.trained| - 1].outputs, run.meanSqrdError,
                                           run.elapsed, old(modelManager.federateModelConfig).value.epochs))
         else None)
      ensures flash == if flashWritable then Stored(Entries(LegacyState())) else old(flash)
    {
      var metrics := modelManager.TrainNewModel(run.filesOpen, run.trained, run.samples, run.elapsed,
                                                run.meanSqrdError);
      modelManager.SetNewModelMetrics(metrics);
      newModelState := DoneTraining;
      var _ := SaveDeviceConfig();
    }

    /** The DONE_TRAINING step of `processModel`: publish the trained model
        with its metrics, wait for the aggregate, announce the end of the
        round and save. */
    method SendTrainedModel(width: FloatWidth, stagedInFlash: bool, link: NM.LinkOutcome)
      requires Valid() && link.Complete() && networkManager != null
      requires modelManager.newModel.Some? && modelManager.newModelMetrics.Some?
      modifies this`newModelState, this`deviceConfig, this`flash, deviceConfig, networkManager, stateMachine
      ensures Valid()
      ensures newModelState == WaitingDownload
      ensures stateMachine.Snap() == SM.WithStatus(old(stateMachine.Snap()), SM.FederateEnding).next
      ensures networkManager.published == old(networkManager.published)
        + (if NM.Restored(old(networkManager.wifiConnected), old(networkManager.mqttConnected), link)
           then (if stagedInFlash
                 then [NM.RawModelPublication(NM.MQTT_RAW_PUBLISH_TOPIC + "/" + networkManager.clientName)]
                 else [])
                + [NM.ModelPublication(NM.MQTT_PUBLISH_TOPIC,
                     NM.ModelMessageFor(width, networkManager.clientName, modelManager.newModel.value,
                                        modelManager.newModelMetrics.value, modelManager.datasetSize,
                                        previousTransmit, previousConstruct))]
           else [])
      ensures flash == if flashWritable then Stored(Entries(LegacyState())) else old(flash)
    {
      networkManager.SendModelToNetwork(modelManager.newModel.value, modelManager.newModelMetrics.value,
                                        width, modelManager.datasetSize, previousTransmit, previousConstruct,
                                        stagedInFlash, link);
      newModelState := WaitingDownload;
      var _ := UpdateFederationStatus(SM.FederateEnding);
      var _ := SaveDeviceConfig();
    }

    // -------------------------------------------------------------------
    // Network callbacks.

    /** `onModelReceived`: decode the transfer document and report its
        round; the decoded arrays are discarded. */
    method OnModelReceived(doc: MM.ModelDocument, width: FloatWidth, elapsed: nat) returns (round: Option<int>)
      requires doc.ModelDocument? ==> doc.precision.Some?
      ensures round.None? <==> doc.UnparsableDocument? || doc.precision.value != PrecisionTag(width)
      ensures round.Some? ==> round.value == if doc.round.RoundInt? then doc.round.value else -1
    {
      var received := modelManager.TransformDataToModel(doc, width, elapsed);
      round := if received != null then Some(received.round) else None;
    }

    /** `onRawModelReceived`: the raw model is staged in flash and read back
        (`LoadModelFromFlash`); a loaded network replaces the new model,
        whose previous value is deleted, and is then ready to train.
        Nothing happens when the file cannot be written or read back, or
        when no federation configuration exists. */
    method OnRawModelReceived(fileOpens: bool, read: seq<Layer>)
      requires Valid()
      requires fileOpens && modelManager.federateModelConfig.Some? ==> WellFormedLayers(read)
      modifies this`newModelState, this`deviceConfig, this`flash, deviceConfig
      modifies modelManager`newModel, modelManager`released
      ensures Valid()
      ensures var loaded := MM.LoadModelFromFlash(modelManager.federateModelConfig, fileOpens, read);
        && (flashWritable && loaded.Some? ==>
              modelManager.newModel == loaded && newModelState == ReadyToTrain
              && modelManager.released == old(modelManager.released) + MM.ReleasedNetworkOf(old(modelManager.newModel))
              && flash == Stored(Entries(LegacyState())))
        && (!(flashWritable && loaded.Some?) ==>
              modelManager.newModel == old(modelManager.newModel) && newModelState == old(newModelState)
              && modelManager.released == old(modelManager.released) && flash == old(flash))
    {
      if !flashWritable {
        return;
      }
      var loaded := MM.LoadModelFromFlash(modelManager.federateModelConfig, fileOpens, read);
      if loaded.Some? {
        if modelManager.newModel.Some? {
          modelManager.released := modelManager.released + [MM.ReleasedNetwork(modelManager.newModel.value)];
        }
        modelManager.SetNewModel(loaded);
        newModelState := ReadyToTrain;
        var _ := SaveDeviceConfig();
      }
    }

    /** The `federate_join` branch: accepted only from NONE or SUBSCRIBED;
        then the legacy state is SUBSCRIBED, JOIN is sent and the
        configuration saved. The state machine is not touched. */
    method OnJoin(link: NM.LinkOutcome)
      requires Valid() && networkManager != null && link.Complete()
      modifies this`federateState, this`deviceConfig, this`flash, deviceConfig, networkManager
      ensures Valid()
      ensures var accepted := old(federateState) == FederateStateNone || old(federateState) == FederateStateSubscribed;
        && federateState == (if accepted then FederateStateSubscribed else old(federateState))
        && flash == (if accepted && flashWritable then Stored(Entries(LegacyState())) else old(flash))
        && networkManager.published == old(networkManager.published)
             + (if accepted && NM.Restored(old(networkManager.wifiConnected), old(networkManager.mqttConnected), link)
                then NM.CommandPublications(NM.EnvelopeFor(Join, networkManager.clientName, -1, ModelIdle))
                else [])
    {
      if federateState != FederateStateNone && federateState != FederateStateSubscribed {
        return;
      }
      federateState := FederateStateSubscribed;
      networkManager.SendMessageToNetwork(Join, -1, ModelIdle, link);
      var _ := SaveDeviceConfig();
    }

    /** The `federate_start` branch: only when SUBSCRIBED and a `config`
        object came with the command. The federation configuration is
        installed and a new network built from it; then either the
        federation starts (round 0, READY_TO_TRAIN, saved) or, when the
        state machine refuses, an error is reported. */
    method OnStart(config: Option<StartConfig>, seed: Option<nat>, initial: Network, now: nat)
      requires Valid()
      requires federateState == FederateStateSubscribed && config.Some? ==>
        Buildable(FederateModelConfig(config.value, seed))
        && BuiltFrom(initial, FederateModelConfig(config.value, seed))
      modifies this`federateState, this`currentRound, this`newModelState, this`deviceConfig, this`flash
      modifies deviceConfig, modelManager, stateMachine
      modifies Coordinator()`inferenceTask, Coordinator()`federationTask, Coordinator()`stateUpdateQueue
      ensures Valid()
      ensures var go := old(federateState) == FederateStateSubscribed && config.Some?;
        && (!go ==> LegacyState() == old(LegacyState()) && flash == old(flash)
                    && stateMachine.Snap() == old(stateMachine.Snap())
                    && modelManager.newModel == old(modelManager.newModel)
                    && modelManager.federateModelConfig == old(modelManager.federateModelConfig))
        && (go ==> modelManager.federateModelConfig == Some(FederateModelConfig(config.value, seed))
                   && modelManager.newModel == Some(initial))
        && (go && SM.CanStartFederation(old(stateMachine.Snap())) ==>
              stateMachine.Snap() == Started(old(stateMachine.Snap()), now)
              && LegacyState() == Persisted(0, FederateStateTraining, ReadyToTrain)
              && flash == (if flashWritable then Stored(Entries(LegacyState())) else old(flash)))
        && (go && !SM.CanStartFederation(old(stateMachine.Snap())) ==>
              stateMachine.Snap() == SM.AfterError(old(stateMachine.Snap()), now)
              && LegacyState() == old(LegacyState()) && flash == old(flash))
      ensures taskCoordinator != null ==>
        taskCoordinator.Gates() ==
          if old(federateState) == FederateStateSubscribed && config.Some?
          then StartGating(old(taskCoordinator.Gates()), old(stateMachine.Snap()), now)
          else old(taskCoordinator.Gates())
    {
      if federateState != FederateStateSubscribed || config.None? {
        return;
      }
      var federateConfig := FederateModelConfig(config.value, seed);
      modelManager.SetFederateModelConfig(federateConfig);
      modelManager.SetupFederatedModel(initial);
      // with a configuration installed the model is always built
      assert modelManager.newModel.Some?;
      BeginTraining(now);
    }

    /** The start branch once the federated model exists: training starts
        when the state machine allows it, with round 0 and a model ready to
        train saved; otherwise an error is reported. */
    method BeginTraining(now: nat)
      requires Valid()
      modifies this`federateState, this`currentRound, this`newModelState, this`deviceConfig, this`flash
      modifies deviceConfig, stateMachine
      modifies Coordinator()`inferenceTask, Coordinator()`federationTask, Coordinator()`stateUpdateQueue
      ensures Valid()
      ensures SM.CanStartFederation(old(stateMachine.Snap())) ==>
        stateMachine.Snap() == Started(old(stateMachine.Snap()), now)
        && LegacyState() == Persisted(0, FederateStateTraining, ReadyToTrain)
        && flash == (if flashWritable then Stored(Entries(LegacyState())) else old(flash))
      ensures !SM.CanStartFederation(old(stateMachine.Snap())) ==>
        stateMachine.Snap() == SM.AfterError(old(stateMachine.Snap()), now)
        && LegacyState() == old(LegacyState()) && flash == old(flash)
      ensures taskCoordinator != null ==>
        taskCoordinator.Gates() == StartGating(old(taskCoordinator.Gates()), old(stateMachine.Snap()), now)
    {
      var started := StartFederationTraining(now);
      if started {
        RecordTrainingStart();
      } else {
        stateMachine.ReportError(now);
      }
    }

    /** Round 0 and a model ready to train, saved. */
    method RecordTrainingStart()
      requires Valid() && federateState == FederateStateTraining
      modifies this`currentRound, this`newModelState, this`deviceConfig, this`flash, deviceConfig
      ensures Valid()
      ensures LegacyState() == Persisted(0, FederateStateTraining, ReadyToTrain)
      ensures flash == if flashWritable then Stored(Entries(LegacyState())) else old(flash)
    {
      currentRound := 0;
      newModelState := ReadyToTrain;
      var _ := SaveDeviceConfig();
    }

    /** The `federate_end` branch: status Ending when allowed, legacy DONE,
        saved. */
    method OnEnd()
      requires Valid()
      modifies this`federateState, this`deviceConfig, this`flash, deviceConfig, stateMachine
      ensures Valid()
      ensures federateState == FederateStateDone
      ensures stateMachine.Snap() == SM.WithStatus(old(stateMachine.Snap()), SM.FederateEnding).next
      ensures flash == if flashWritable then Stored(Entries(LegacyState())) else old(flash)
    {
      var _ := UpdateFederationStatus(SM.FederateEnding);
      federateState := FederateStateDone;
      var _ := SaveDeviceConfig();
    }

    /** The `federate_unsubscribe` branch: reset, then save. */
    method OnUnsubscribe(now: nat)
      requires Valid()
      modifies this`federateState, this`currentRound, this`newModelState, this`deviceConfig, this`flash
      modifies deviceConfig, stateMachine
      modifies Coordinator()`inferenceTask, Coordinator()`federationTask, Coordinator()`stateUpdateQueue
      ensures Valid()
      ensures LegacyState() == Persisted(-1, FederateStateNone, ModelIdle)
      ensures stateMachine.Snap() == Reset(old(stateMachine.Snap()), now)
      ensures flash == if flashWritable then Stored(Entries(Persisted(-1, FederateStateNone, ModelIdle))) else old(flash)
      ensures taskCoordinator != null ==>
        taskCoordinator.Gates() == ResetGating(old(taskCoordinator.Gates()), old(stateMachine.Snap()), now)
    {
      ResetFederationState(now);
      var _ := SaveDeviceConfig();
    }

    /** `onCommandReceived`: an unparsable document or an unknown command
        changes nothing; the five federation commands go to their branch.
        `federate_alive` only answers with ALIVE and the default round and
        model state. */
    method OnCommandReceived(doc: CommandDocument, initial: Network, now: nat, link: NM.LinkOutcome)
      requires Valid() && networkManager != null && link.Complete()
      requires doc.CommandDocument? ==> doc.command.Some?
      requires doc.CommandDocument? && doc.command == Some(START_COMMAND)
               && federateState == FederateStateSubscribed && doc.config.Some? ==>
        Buildable(FederateModelConfig(doc.config.value, doc.randomSeed))
        && BuiltFrom(initial, FederateModelConfig(doc.config.value, doc.randomSeed))
      modifies this`federateState, this`currentRound, this`newModelState, this`deviceConfig, this`flash
      modifies deviceConfig, modelManager, networkManager, stateMachine
      modifies Coordinator()`inferenceTask, Coordinator()`federationTask, Coordinator()`stateUpdateQueue
      ensures Valid()
      ensures var known := doc.CommandDocument?
        && doc.command.value in {JOIN_COMMAND, START_COMMAND, END_COMMAND, UNSUBSCRIBE_COMMAND, ALIVE_COMMAND};
        !known || doc.command.value == ALIVE_COMMAND ==>
          LegacyState() == old(LegacyState()) && flash == old(flash)
          && stateMachine.Snap() == old(stateMachine.Snap())
          && modelManager.newModel == old(modelManager.newModel)
      ensures !doc.CommandDocument? ==> networkManager.published == old(networkManager.published)
      ensures doc.CommandDocument? && doc.command.value == ALIVE_COMMAND ==>
        networkManager.published == old(networkManager.published)
          + (if NM.Restored(old(networkManager.wifiConnected), old(networkManager.mqttConnected), link)
             then NM.CommandPublications(NM.EnvelopeFor(Alive, networkManager.clientName, -1, ModelIdle))
             else [])
      ensures doc.CommandDocument? && doc.command.value == JOIN_COMMAND ==>
        var accepted := old(federateState) == FederateStateNone || old(federateState) == FederateStateSubscribed;
        && stateMachine.Snap() == old(stateMachine.Snap())
        && federateState == (if accepted then FederateStateSubscribed else old(federateState))
        && flash == (if accepted && flashWritable then Stored(Entries(LegacyState())) else old(flash))
        && networkManager.published == old(networkManager.published)
             + (if accepted && NM.Restored(old(networkManager.wifiConnected), old(networkManager.mqttConnected), link)
                then NM.CommandPublications(NM.EnvelopeFor(Join, networkManager.clientName, -1, ModelIdle))
                else [])
      ensures doc.CommandDocument? && doc.command.value == START_COMMAND ==>
        var go := old(federateState) == FederateStateSubscribed && doc.config.Some?;
        && networkManager.published == old(networkManager.published)
        && (go ==> modelManager.federateModelConfig == Some(FederateModelConfig(doc.config.value, doc.randomSeed))
                   && modelManager.newModel == Some(initial))
        && (go && SM.CanStartFederation(old(stateMachine.Snap())) ==>
              stateMachine.Snap() == Started(old(stateMachine.Snap()), now)
              && LegacyState() == Persisted(0, FederateStateTraining, ReadyToTrain)
              && flash == (if flashWritable then Stored(Entries(LegacyState())) else old(flash)))
        && (go && !SM.CanStartFederation(old(stateMachine.Snap())) ==>
              stateMachine.Snap() == SM.AfterError(old(stateMachine.Snap()), now)
              && LegacyState() == old(LegacyState()) && flash == old(flash))
        && (!go ==> LegacyState() == old(LegacyState()) && stateMachine.Snap() == old(stateMachine.Snap())
                    && flash == old(flash) && modelManager.newModel == old(modelManager.newModel))
      ensures doc.CommandDocument? && doc.command.value == END_COMMAND ==>
        federateState == FederateStateDone
        && stateMachine.Snap() == SM.WithStatus(old(stateMachine.Snap()), SM.FederateEnding).next
        && flash == (if flashWritable then Stored(Entries(LegacyState())) else old(flash))
        && networkManager.published == old(networkManager.published)
      ensures doc.CommandDocument? && doc.command.value == UNSUBSCRIBE_COMMAND ==>
        LegacyState() == Persisted(-1, FederateStateNone, ModelIdle)
        && stateMachine.Snap() == Reset(old(stateMachine.Snap()), now)
        && flash == (if flashWritable then Stored(Entries(LegacyState())) else old(flash))
        && networkManager.published == old(networkManager.published)
      ensures taskCoordinator != null ==>
        taskCoordinator.Gates() ==
          if doc.CommandDocument? && doc.command.value == START_COMMAND
             && old(federateState) == FederateStateSubscribed && doc.config.Some?
          then StartGating(old(taskCoordinator.Gates()), old(stateMachine.Snap()), now)
          else if doc.CommandDocument? && doc.command.value == UNSUBSCRIBE_COMMAND
          then ResetGating(old(taskCoordinator.Gates()), old(stateMachine.Snap()), now)
          else old(taskCoordinator.Gates())
    {
      if doc.UnparsableCommand? {
        return;
      }
      var command := doc.command.value;
      if command == JOIN_COMMAND {
        OnJoin(link);
      } else if command == START_COMMAND {
        OnStart(doc.config, doc.randomSeed, initial, now);
      } else if command == END_COMMAND {
        OnEnd();
      } else if command == UNSUBSCRIBE_COMMAND {
        OnUnsubscribe(now);
      } else if command == ALIVE_COMMAND {
        networkManager.SendMessageToNetwork(Alive, -1, ModelIdle, link);
      }
    }

    // -------------------------------------------------------------------
    // Boot.

    /** `initializeStateMachine`: the state machine must accept staying in
        (or moving to) DeviceInitializing. */
    method InitializeStateMachine(now: nat) returns (ok: bool)
      modifies stateMachine
      ensures ok <==> SM.IsValidTransition(old(stateMachine.currentState), SM.DeviceInitializing)
      ensures SM.Step(ok, stateMachine.Snap()) == SM.Transition(old(stateMachine.Snap()), SM.DeviceInitializing, now)
    {
      ok := stateMachine.TransitionTo(SM.DeviceInitializing, now);
    }

    /** `startTaskCoordinator`: needs the network manager; builds a
        coordinator over this state machine, initialises it and starts its
        tasks, discarding it when either step fails. */
    method StartTaskCoordinator(mutexCreated: seq<bool>, queueCreated: seq<bool>, spawned: seq<bool>)
      returns (ok: bool)
      requires Valid()
      requires |mutexCreated| == 3 && |queueCreated| == 4 && |spawned| == 4
      modifies this`taskCoordinator
      ensures Valid()
      ensures ok <==> (old(networkManager) != null
        && (forall i :: 0 <= i < 3 ==> mutexCreated[i]) && (forall i :: 0 <= i < 4 ==> queueCreated[i])
        && (forall i :: 0 <= i < 4 ==> spawned[i]))
      ensures ok ==> taskCoordinator != null && fresh(taskCoordinator)
      ensures ok ==> taskCoordinator.tasksCreated && taskCoordinator.coordinatorRunning
      ensures ok ==> taskCoordinator.Gates() == TC.FreshGating
      ensures !ok ==> taskCoordinator == (if networkManager == null then old(taskCoordinator) else null)
    {
      if networkManager == null {
        return false;
      }
      taskCoordinator := NewCoordinator(stateMachine, mutexCreated, queueCreated, spawned);
      ok := taskCoordinator != null;
    }

    /** The configuration step of `bootUp`: a stored configuration replaces
        the legacy state, and training resumes when it was saved while
        training or starting; without one the defaults stay. */
    method RestoreConfig() returns (resume: bool)
      requires Valid()
      modifies this`deviceConfig, this`currentRound, this`federateState, this`newModelState
      ensures Valid()
      ensures resume <==> flash.Stored? && Resumes(Decoded(flash.entries).federateState)
      ensures LegacyState() == if flash.Stored? then Decoded(flash.entries) else old(LegacyState())
    {
      var loaded := LoadDeviceConfig();
      resume := false;
      if loaded {
        resume := deviceConfig.currentFederateState == FederateStateTraining
                  || deviceConfig.currentFederateState == FederateStateStarting;
        currentRound := deviceConfig.currentRound;
        newModelState := deviceConfig.newModelState;
        federateState := deviceConfig.currentFederateState;
      }
    }

    /** Boot with the flash mounted and the device definitions read: the
        stored configuration replaces the legacy defaults, the network
        manager connects and, when resuming, sends RESUME with the stored
        round and model state. */
    method BootNetwork(name: string, setupLink: NM.LinkOutcome, ensureLink: NM.LinkOutcome, sendLink: NM.LinkOutcome)
      returns (resume: bool)
      requires Valid() && setupLink.Complete() && ensureLink.Complete() && sendLink.Complete()
      requires networkManager == null
      modifies this`clientName, this`deviceConfig, this`currentRound, this`federateState, this`newModelState
      modifies this`networkManager
      ensures Valid()
      ensures clientName == Some(name)
      ensures resume <==> flash.Stored? && Resumes(Decoded(flash.entries).federateState)
      ensures LegacyState() == if flash.Stored? then Decoded(flash.entries) else old(LegacyState())
      ensures networkManager != null && fresh(networkManager) && networkManager.clientName == name
      ensures networkManager.published ==
        if resume && NM.Restored(true, BootMqtt(setupLink, ensureLink), sendLink)
        then NM.CommandPublications(NM.EnvelopeFor(Resume, name, currentRound, newModelState))
        else []
      ensures networkManager.wifiConnected && !networkManager.sendingMessage
      ensures networkManager.mqttConnected ==
        if resume then NM.MqttAfter(true, BootMqtt(setupLink, ensureLink), sendLink) else BootMqtt(setupLink, ensureLink)
    {
      clientName := Some(name);
      resume := RestoreConfig();
      var network := new NM.NetworkManager(name);
      networkManager := network;
      ConnectAtBoot(network, resume, currentRound, newModelState, setupLink, ensureLink, sendLink);
    }

    /** `bootUp`: nothing without the file system or the device name.
        Otherwise the configuration is restored and the network set up
        (`BootNetwork`), then the state machine is initialised and moved to
        inference, the task coordinator started (an error is reported when
        it cannot be) and the state machine synced with the restored legacy
        state. */
    method BootUp(fsMounted: bool, definitions: Option<string>,
                  setupLink: NM.LinkOutcome, ensureLink: NM.LinkOutcome, sendLink: NM.LinkOutcome,
                  mutexCreated: seq<bool>, queueCreated: seq<bool>, spawned: seq<bool>, now: nat)
      requires Valid() && setupLink.Complete() && ensureLink.Complete() && sendLink.Complete()
      requires networkManager == null
      requires |mutexCreated| == 3 && |queueCreated| == 4 && |spawned| == 4
      modifies this`clientName, this`deviceConfig, this`currentRound, this`federateState, this`newModelState
      modifies this`networkManager, this`taskCoordinator, stateMachine
      modifies Coordinator()`inferenceTask, Coordinator()`federationTask, Coordinator()`stateUpdateQueue
      ensures Valid()
      ensures flash == old(flash)
      ensures modelManager.federateModelConfig == old(modelManager.federateModelConfig)
      ensures !fsMounted || definitions.None? ==>
        networkManager == null && LegacyState() == old(LegacyState())
        && stateMachine.Snap() == old(stateMachine.Snap())
        && taskCoordinator == old(taskCoordinator) && deviceConfig == old(deviceConfig) && clientName == old(clientName)
        && (taskCoordinator != null ==> taskCoordinator.Gates() == old(taskCoordinator.Gates()))
      ensures fsMounted && definitions.Some? ==>
        networkManager != null && clientName == definitions
        && LegacyState() == (if flash.Stored? then Decoded(flash.entries) else old(LegacyState()))
        && networkManager.published ==
             if flash.Stored? && Resumes(Decoded(flash.entries).federateState)
                && NM.Restored(true, BootMqtt(setupLink, ensureLink), sendLink)
             then NM.CommandPublications(NM.EnvelopeFor(Resume, definitions.value, currentRound, newModelState))
             else []
      ensures var initialised := SM.Transition(old(stateMachine.Snap()), SM.DeviceInitializing, now).next;
        var booted := SM.Transition(initialised, SM.InferenceMode, now).next;
        fsMounted && definitions.Some? && old(stateMachine.currentState) == SM.DeviceInitializing ==>
          (taskCoordinator != null ==>
             stateMachine.Snap() == Synced(booted, federateState, now)
             && taskCoordinator.Gates() == SyncedGating(TC.FreshGating, booted, federateState, now))
          && (taskCoordinator == null ==> stateMachine.Snap() == SM.AfterError(booted, now))
    {
      if !fsMounted || definitions.None? {
        return;
      }
      var _ := BootNetwork(definitions.value, setupLink, ensureLink, sendLink);
      BootStateMachine(mutexCreated, queueCreated, spawned, now);
    }

    /** The state-machine half of `bootUp`, once the network manager
        exists: initialise the state machine, move it to inference, start
        the task coordinator (reporting an error when it cannot be started)
        and sync the state machine with the legacy state. */
    method BootStateMachine(mutexCreated: seq<bool>, queueCreated: seq<bool>, spawned: seq<bool>, now: nat)
      requires Valid() && networkManager != null
      requires |mutexCreated| == 3 && |queueCreated| == 4 && |spawned| == 4
      modifies this`taskCoordinator, stateMachine
      modifies Coordinator()`inferenceTask, Coordinator()`federationTask, Coordinator()`stateUpdateQueue
      ensures Valid()
      ensures var initialised := SM.Transition(old(stateMachine.Snap()), SM.DeviceInitializing, now).next;
        var booted := SM.Transition(initialised, SM.InferenceMode, now).next;
        old(stateMachine.currentState) == SM.DeviceInitializing ==>
          (taskCoordinator != null ==>
             stateMachine.Snap() == Synced(booted, federateState, now)
             && taskCoordinator.Gates() == SyncedGating(TC.FreshGating, booted, federateState, now))
          && (taskCoordinator == null ==> stateMachine.Snap() == SM.AfterError(booted, now))
    {
      var initialised := InitializeStateMachine(now);
      if !initialised {
        return;
      }
      var inference := TransitionToState(SM.InferenceMode, now);
      // from DeviceInitializing the move to inference is always allowed
      assert inference;
      var started := StartTaskCoordinator(mutexCreated, queueCreated, spawned);
      if !started {
        stateMachine.ReportError(now);
        return;
      }
      UpdateDeviceState(now);
    }
  }
}
