// The task gating of src/TaskCoordinator.cpp. The four FreeRTOS tasks, the
// four queues and the three mutexes are optional handles: a task records
// whether it is suspended, a queue holds its pending messages, a mutex
// whether it is available. Whether the kernel can allocate a handle, and the
// stack watermarks it reports, are parameters; the task bodies, scheduling
// and blocking waits are not modelled.
module TaskCoordinator {
  import opened Wrappers
  import SM = StateMachine

  const COMMUNICATION_STACK_SIZE: nat := 8192
  const FEDERATION_STACK_SIZE: nat := 12288
  const INFERENCE_STACK_SIZE: nat := 8192
  const SENSOR_STACK_SIZE: nat := 8192

  const COMMUNICATION_PRIORITY: nat := 4
  const FEDERATION_PRIORITY: nat := 3
  const INFERENCE_PRIORITY: nat := 2
  const SENSOR_PRIORITY: nat := 1

  const QUEUE_SIZE: nat := 10
  /** A repeated state is handled again once this many ms have passed. */
  const STATE_REFRESH_INTERVAL: nat := 30000
  /** `unsigned long` on the target. */
  const CLOCK_MODULUS: nat := 0x1_0000_0000

  datatype Task = Task(stackSize: nat, priority: nat, suspended: bool)

  datatype StateUpdateMessage = StateUpdateMessage(newState: SM.DeviceState, newStatus: SM.FederateStatus, timestamp: nat)

  datatype DataKind = ModelUpdate | InferenceRequest | SensorReading

  /** A data message; the payload pointer it carries is never dereferenced
      by the coordinator and is not modelled. */
  datatype DataMessage = DataMessage(kind: DataKind, dataSize: nat, timestamp: nat)

  datatype Queue<T> = Queue(items: seq<T>)

  datatype Mutex = Mutex(available: bool)

  /** `vTaskSuspend`/`vTaskResume` on a handle; no-ops on a null handle. */
  function WithSuspended(t: Option<Task>, suspended: bool): (r: Option<Task>)
    ensures r.None? <==> t.None?
    ensures r.Some? ==>
      r.value.suspended == suspended && r.value.stackSize == t.value.stackSize && r.value.priority == t.value.priority
  {
    if t.Some? then Some(t.value.(suspended := suspended)) else None
  }

  /** Which of the inference and federation tasks run in a device state. */
  datatype Gate = Gate(inferenceRuns: bool, federationRuns: bool)

  function GateFor(state: SM.DeviceState): Gate
  {
    match state
    case DeviceInitializing => Gate(false, false)
    case InferenceMode => Gate(true, false)
    case FederationTraining => Gate(false, true)
    case FederationRecovery => Gate(false, true)
    case DeviceError => Gate(false, false)
  }

  /** Inference and federation never run together, the federation task runs
      only while the state machine reports federation active, and the
      inference task runs whenever the state machine allows inference. */
  lemma GateAgreesWithStateMachine(s: SM.Snapshot)
    ensures var g := GateFor(s.currentState);
      && !(g.inferenceRuns && g.federationRuns)
      && (g.federationRuns ==> SM.IsFederationActive(s))
      && (SM.IsInferenceAllowed(s) ==> g.inferenceRuns)
      && (g.inferenceRuns <==> s.currentState == SM.InferenceMode)
  {
  }

  /** `xQueueSend` with a short timeout: fails on a missing or full queue. */
  function Enqueue<T>(q: Option<Queue<T>>, m: T): (r: (bool, Option<Queue<T>>))
    ensures r.0 <==> q.Some? && |q.value.items| < QUEUE_SIZE
    ensures r.0 ==> r.1 == Some(Queue(q.value.items + [m]))
    ensures !r.0 ==> r.1 == q
  {
    if q.Some? && |q.value.items| < QUEUE_SIZE then (true, Some(Queue(q.value.items + [m]))) else (false, q)
  }

  /** The part of the coordinator `updateTaskStates` changes: the inference
      and federation tasks and the state-update queue. */
  datatype Gating = Gating(inference: Option<Task>, federation: Option<Task>, stateQueue: Option<Queue<StateUpdateMessage>>)

  /** `updateTaskStates` in the state machine's snapshot `s`: both tasks
      suspended or resumed as the state's gate says, then the state and the
      federation status queued. */
  function Regated(g: Gating, s: SM.Snapshot, now: nat): Gating
  {
    var gate := GateFor(s.currentState);
    Gating(WithSuspended(g.inference, !gate.inferenceRuns), WithSuspended(g.federation, !gate.federationRuns),
           Enqueue(g.stateQueue, StateUpdateMessage(s.currentState, s.federateStatus, now)).1)
  }

  /** A task is running when it exists and is not suspended. */
  predicate Running(t: Option<Task>)
  {
    t.Some? && !t.value.suspended
  }

  /** After a re-gate, whatever the tasks were doing before: the tasks that
      exist run exactly as the state allows, inference and federation never
      run together, a running federation task means the federation is
      active, and the queue, if it had room, ends with the reported state. */
  lemma RegatedFollowsState(g: Gating, s: SM.Snapshot, now: nat)
    ensures var r := Regated(g, s, now);
      && (g.inference.Some? ==> (Running(r.inference) <==> s.currentState == SM.InferenceMode))
      && (g.federation.Some? ==> (Running(r.federation) ==> SM.IsFederationActive(s)))
      && !(Running(r.inference) && Running(r.federation))
      && (r.inference.Some? <==> g.inference.Some?) && (r.federation.Some? <==> g.federation.Some?)
      && (g.stateQueue.Some? && |g.stateQueue.value.items| < QUEUE_SIZE ==>
            r.stateQueue == Some(Queue(g.stateQueue.value.items + [StateUpdateMessage(s.currentState, s.federateStatus, now)])))
  {
    GateAgreesWithStateMachine(s);
  }

  /** The gating of a coordinator whose four tasks were just spawned and
      whose queues were just created. */
  const FreshGating: Gating :=
    Gating(Some(Task(INFERENCE_STACK_SIZE, INFERENCE_PRIORITY, false)),
           Some(Task(FEDERATION_STACK_SIZE, FEDERATION_PRIORITY, false)), Some(Queue([])))

  /** The lowest acceptable stack watermark: 5% of the stack, truncated
      (409 words for the 8192-word stacks, 614 for the federation task's). */
  function MinStack(stackSize: nat): (m: nat)
    ensures m * 100 <= stackSize * 5 < (m + 1) * 100
  {
    stackSize * 5 / 100
  }

  /** The four stack watermarks the kernel reports, in task order. */
  datatype Watermarks = Watermarks(communication: nat, federation: nat, inference: nat, sensor: nat)

  predicate StacksHealthy(w: Watermarks)
  {
    w.communication > MinStack(COMMUNICATION_STACK_SIZE)
    && w.federation > MinStack(FEDERATION_STACK_SIZE)
    && w.inference > MinStack(INFERENCE_STACK_SIZE)
    && w.sensor > MinStack(SENSOR_STACK_SIZE)
  }

  /** Above the truncated threshold is the same as above 5% exactly. */
  lemma AboveMinStack(w: nat, stackSize: nat)
    ensures w > MinStack(stackSize) <==> w * 100 > stackSize * 5
  {
    var q, r := stackSize * 5 / 100, stackSize * 5 % 100;
    assert stackSize * 5 == q * 100 + r && r < 100;
    if w > q {
      assert w * 100 >= (q + 1) * 100;
    } else {
      assert w * 100 <= q * 100;
    }
  }

  /** A task is healthy when more than 5% of its stack never got used. */
  lemma StacksHealthyMeansFivePercent(w: Watermarks)
    ensures StacksHealthy(w) <==>
      && w.communication * 100 > COMMUNICATION_STACK_SIZE * 5
      && w.federation * 100 > FEDERATION_STACK_SIZE * 5
      && w.inference * 100 > INFERENCE_STACK_SIZE * 5
      && w.sensor * 100 > SENSOR_STACK_SIZE * 5
  {
    AboveMinStack(w.communication, COMMUNICATION_STACK_SIZE);
    AboveMinStack(w.federation, FEDERATION_STACK_SIZE);
    AboveMinStack(w.inference, INFERENCE_STACK_SIZE);
    AboveMinStack(w.sensor, SENSOR_STACK_SIZE);
  }

  class TaskCoordinator {
    const stateMachine: SM.StateMachine?

    var communicationTask: Option<Task>
    var federationTask: Option<Task>
    var inferenceTask: Option<Task>
    var sensorTask: Option<Task>

    var stateUpdateQueue: Option<Queue<StateUpdateMessage>>
    var federationDataQueue: Option<Queue<DataMessage>>
    var inferenceDataQueue: Option<Queue<DataMessage>>
    var sensorDataQueue: Option<Queue<DataMessage>>

    var stateMutex: Option<Mutex>
    var modelMutex: Option<Mutex>
    var networkMutex: Option<Mutex>

    var tasksCreated: bool
    var coordinatorRunning: bool

    /** The function-local statics of `handleStateTransition`. */
    var lastHandledState: SM.DeviceState
    var lastHandledTime: nat

    /** The tasks are marked created only once all four exist, and the
        coordinator runs only while they do. */
    predicate Valid()
      reads this
    {
      && (tasksCreated ==>
            communicationTask.Some? && federationTask.Some? && inferenceTask.Some? && sensorTask.Some?)
      && (coordinatorRunning ==> tasksCreated)
      && lastHandledTime < CLOCK_MODULUS
    }

    function Gates(): Gating
      reads this
    {
      Gating(inferenceTask, federationTask, stateUpdateQueue)
    }

    predicate AllTasksPresent()
      reads this
    {
      communicationTask.Some? && federationTask.Some? && inferenceTask.Some? && sensorTask.Some?
    }

    predicate AllQueuesPresent()
      reads this
    {
      stateUpdateQueue.Some? && federationDataQueue.Some? && inferenceDataQueue.Some? && sensorDataQueue.Some?
    }

    predicate AllMutexesPresent()
      reads this
    {
      stateMutex.Some? && modelMutex.Some? && networkMutex.Some?
    }

    constructor (stateMachine: SM.StateMachine?)
      ensures Valid()
      ensures this.stateMachine == stateMachine
      ensures communicationTask == federationTask == inferenceTask == sensorTask == None
      ensures stateUpdateQueue == None && federationDataQueue == None
      ensures inferenceDataQueue == None && sensorDataQueue == None
      ensures stateMutex == modelMutex == networkMutex == None
      ensures !tasksCreated && !coordinatorRunning
      ensures lastHandledState == SM.DeviceInitializing && lastHandledTime == 0
    {
      this.stateMachine := stateMachine;
      communicationTask, federationTask, inferenceTask, sensorTask := None, None, None, None;
      stateUpdateQueue, federationDataQueue, inferenceDataQueue, sensorDataQueue := None, None, None, None;
      stateMutex, modelMutex, networkMutex := None, None, None;
      tasksCreated, coordinatorRunning := false, false;
      lastHandledState, lastHandledTime := SM.DeviceInitializing, 0;
    }

    /** Create the three mutexes; `created[i]` says whether the kernel
        could allocate mutex i. Existing handles are overwritten. */
    method CreateSemaphores(created: seq<bool>) returns (ok: bool)
      requires |created| == 3
      modifies this`stateMutex, this`modelMutex, this`networkMutex
      ensures stateMutex == (if created[0] then Some(Mutex(true)) else None)
      ensures modelMutex == (if created[1] then Some(Mutex(true)) else None)
      ensures networkMutex == (if created[2] then Some(Mutex(true)) else None)
      ensures ok <==> AllMutexesPresent()
    {
      stateMutex := if created[0] then Some(Mutex(true)) else None;
      modelMutex := if created[1] then Some(Mutex(true)) else None;
      networkMutex := if created[2] then Some(Mutex(true)) else None;
      ok := stateMutex.Some? && modelMutex.Some? && networkMutex.Some?;
    }

    /** Create the four queues, empty. */
    method CreateQueues(created: seq<bool>) returns (ok: bool)
      requires |created| == 4
      modifies this`stateUpdateQueue, this`federationDataQueue, this`inferenceDataQueue, this`sensorDataQueue
      ensures stateUpdateQueue == (if created[0] then Some(Queue([])) else None)
      ensures federationDataQueue == (if created[1] then Some(Queue([])) else None)
      ensures inferenceDataQueue == (if created[2] then Some(Queue([])) else None)
      ensures sensorDataQueue == (if created[3] then Some(Queue([])) else None)
      ensures ok <==> AllQueuesPresent()
    {
      stateUpdateQueue := if created[0] then Some(Queue([])) else None;
      federationDataQueue := if created[1] then Some(Queue([])) else None;
      inferenceDataQueue := if created[2] then Some(Queue([])) else None;
      sensorDataQueue := if created[3] then Some(Queue([])) else None;
      ok := AllQueuesPresent();
    }

    method DeleteSemaphores()
      modifies this`stateMutex, this`modelMutex, this`networkMutex
      ensures stateMutex == modelMutex == networkMutex == None
    {
      stateMutex, modelMutex, networkMutex := None, None, None;
    }

    method DeleteQueues()
      modifies this`stateUpdateQueue, this`federationDataQueue, this`inferenceDataQueue, this`sensorDataQueue
      ensures stateUpdateQueue == None && federationDataQueue == None
      ensures inferenceDataQueue == None && sensorDataQueue == None
    {
      stateUpdateQueue, federationDataQueue, inferenceDataQueue, sensorDataQueue := None, None, None, None;
    }

    /** Mutexes first, then queues. A mutex failure returns at once and
        keeps the mutexes that were created; a queue failure deletes the
        mutexes but keeps the queues that were created. */
    method Initialize(mutexCreated: seq<bool>, queueCreated: seq<bool>) returns (ok: bool)
      requires |mutexCreated| == 3 && |queueCreated| == 4
      modifies this`stateMutex, this`modelMutex, this`networkMutex
      modifies this`stateUpdateQueue, this`federationDataQueue, this`inferenceDataQueue, this`sensorDataQueue
      ensures ok <==> (forall i :: 0 <= i < 3 ==> mutexCreated[i]) && (forall i :: 0 <= i < 4 ==> queueCreated[i])
      ensures ok ==> AllMutexesPresent() && AllQueuesPresent()
      ensures ok ==> stateUpdateQueue == Some(Queue([])) && federationDataQueue == Some(Queue([]))
      ensures ok ==> inferenceDataQueue == Some(Queue([])) && sensorDataQueue == Some(Queue([]))
      ensures !(forall i :: 0 <= i < 3 ==> mutexCreated[i]) ==>
        && stateMutex == (if mutexCreated[0] then Some(Mutex(true)) else None)
        && modelMutex == (if mutexCreated[1] then Some(Mutex(true)) else None)
        && networkMutex == (if mutexCreated[2] then Some(Mutex(true)) else None)
        && unchanged(this`stateUpdateQueue, this`federationDataQueue, this`inferenceDataQueue, this`sensorDataQueue)
      ensures (forall i :: 0 <= i < 3 ==> mutexCreated[i]) && !ok ==>
        && stateMutex == modelMutex == networkMutex == None
        && stateUpdateQueue == (if queueCreated[0] then Some(Queue([])) else None)
        && federationDataQueue == (if queueCreated[1] then Some(Queue([])) else None)
        && inferenceDataQueue == (if queueCreated[2] then Some(Queue([])) else None)
        && sensorDataQueue == (if queueCreated[3] then Some(Queue([])) else None)
    {
      var semaphores := CreateSemaphores(mutexCreated);
      if !semaphores {
        return false;
      }
      var queues := CreateQueues(queueCreated);
      if !queues {
        DeleteSemaphores();
        return false;
      }
      return true;
    }

    /** Spawn the four tasks in priority order; `spawned[i]` says whether the
        kernel could create task i. A failure returns at once, keeping the
        handles already created and leaving the failed one as it was, with
        the tasks not marked created. */
    method StartTasks(spawned: seq<bool>) returns (ok: bool)
      requires |spawned| == 4
      requires Valid()
      modifies this`communicationTask, this`federationTask, this`inferenceTask, this`sensorTask
      modifies this`tasksCreated, this`coordinatorRunning
      ensures Valid()
      ensures old(tasksCreated) ==> ok && unchanged(this)
      ensures !old(tasksCreated) ==> (ok <==> forall i :: 0 <= i < 4 ==> spawned[i])
      ensures !old(tasksCreated) && spawned[0] ==>
        communicationTask == Some(Task(COMMUNICATION_STACK_SIZE, COMMUNICATION_PRIORITY, false))
      ensures !old(tasksCreated) && spawned[0] && spawned[1] ==>
        federationTask == Some(Task(FEDERATION_STACK_SIZE, FEDERATION_PRIORITY, false))
      ensures !old(tasksCreated) && spawned[0] && spawned[1] && spawned[2] ==>
        inferenceTask == Some(Task(INFERENCE_STACK_SIZE, INFERENCE_PRIORITY, false))
      ensures !old(tasksCreated) && ok ==>
        sensorTask == Some(Task(SENSOR_STACK_SIZE, SENSOR_PRIORITY, false)) && tasksCreated && coordinatorRunning
      ensures !old(tasksCreated) && !ok ==>
        !tasksCreated && coordinatorRunning == old(coordinatorRunning)
      ensures !old(tasksCreated) && !spawned[0] ==> communicationTask == old(communicationTask)
      ensures !old(tasksCreated) && !(spawned[0] && spawned[1]) ==> federationTask == old(federationTask)
      ensures !old(tasksCreated) && !(spawned[0] && spawned[1] && spawned[2]) ==> inferenceTask == old(inferenceTask)
      ensures !old(tasksCreated) && !ok ==> sensorTask == old(sensorTask)
    {
      if tasksCreated {
        return true;
      }
      if !spawned[0] {
        return false;
      }
      communicationTask := Some(Task(COMMUNICATION_STACK_SIZE, COMMUNICATION_PRIORITY, false));
      if !spawned[1] {
        return false;
      }
      federationTask := Some(Task(FEDERATION_STACK_SIZE, FEDERATION_PRIORITY, false));
      if !spawned[2] {
        return false;
      }
      inferenceTask := Some(Task(INFERENCE_STACK_SIZE, INFERENCE_PRIORITY, false));
      if !spawned[3] {
        return false;
      }
      sensorTask := Some(Task(SENSOR_STACK_SIZE, SENSOR_PRIORITY, false));
      tasksCreated := true;
      coordinatorRunning := true;
      return true;
    }

    /** Delete every task and stop coordinating. */
    method StopTasks()
      requires Valid()
      modifies this`communicationTask, this`federationTask, this`inferenceTask, this`sensorTask
      modifies this`tasksCreated, this`coordinatorRunning
      ensures Valid()
      ensures communicationTask == federationTask == inferenceTask == sensorTask == None
      ensures !tasksCreated && !coordinatorRunning
    {
      coordinatorRunning := false;
      communicationTask, federationTask, inferenceTask, sensorTask := None, None, None, None;
      tasksCreated := false;
    }

    /** Stop the tasks and delete the queues and the mutexes. */
    method Shutdown()
      requires Valid()
      modifies this
      ensures Valid()
      ensures communicationTask == federationTask == inferenceTask == sensorTask == None
      ensures stateUpdateQueue == None && federationDataQueue == None
      ensures inferenceDataQueue == None && sensorDataQueue == None
      ensures stateMutex == modelMutex == networkMutex == None
      ensures !tasksCreated && !coordinatorRunning
      ensures lastHandledState == old(lastHandledState) && lastHandledTime == old(lastHandledTime)
    {
      StopTasks();
      DeleteQueues();
      DeleteSemaphores();
    }

    method SuspendInferenceTask()
      modifies this`inferenceTask
      ensures inferenceTask == WithSuspended(old(inferenceTask), true)
    {
      if inferenceTask.Some? {
        inferenceTask := Some(inferenceTask.value.(suspended := true));
      }
    }

    method ResumeInferenceTask()
      modifies this`inferenceTask
      ensures inferenceTask == WithSuspended(old(inferenceTask), false)
    {
      if inferenceTask.Some? {
        inferenceTask := Some(inferenceTask.value.(suspended := false));
      }
    }

    method SuspendFederationTask()
      modifies this`federationTask
      ensures federationTask == WithSuspended(old(federationTask), true)
    {
      if federationTask.Some? {
        federationTask := Some(federationTask.value.(suspended := true));
      }
    }

    method ResumeFederationTask()
      modifies this`federationTask
      ensures federationTask == WithSuspended(old(federationTask), false)
    {
      if federationTask.Some? {
        federationTask := Some(federationTask.value.(suspended := false));
      }
    }

    /** Queue a state update stamped with the current federation status. */
    method SendStateUpdate(newState: SM.DeviceState, now: nat) returns (ok: bool)
      modifies this`stateUpdateQueue
      ensures var status := if stateMachine != null then stateMachine.federateStatus else SM.FederateNone;
        (ok, stateUpdateQueue) == Enqueue(old(stateUpdateQueue), StateUpdateMessage(newState, status, now))
    {
      var status := if stateMachine != null then stateMachine.federateStatus else SM.FederateNone;
      var msg := StateUpdateMessage(newState, status, now);
      if stateUpdateQueue.Some? {
        if |stateUpdateQueue.value.items| < QUEUE_SIZE {
          stateUpdateQueue := Some(Queue(stateUpdateQueue.value.items + [msg]));
          return true;
        }
        return false;
      }
      return false;
    }

    method SendFederationData(dataSize: nat, now: nat) returns (ok: bool)
      modifies this`federationDataQueue
      ensures (ok, federationDataQueue) == Enqueue(old(federationDataQueue), DataMessage(ModelUpdate, dataSize, now))
    {
      ok, federationDataQueue := Enqueue(federationDataQueue, DataMessage(ModelUpdate, dataSize, now)).0,
                                 Enqueue(federationDataQueue, DataMessage(ModelUpdate, dataSize, now)).1;
    }

    method SendInferenceData(dataSize: nat, now: nat) returns (ok: bool)
      modifies this`inferenceDataQueue
      ensures (ok, inferenceDataQueue) == Enqueue(old(inferenceDataQueue), DataMessage(InferenceRequest, dataSize, now))
    {
      ok, inferenceDataQueue := Enqueue(inferenceDataQueue, DataMessage(InferenceRequest, dataSize, now)).0,
                                Enqueue(inferenceDataQueue, DataMessage(InferenceRequest, dataSize, now)).1;
    }

    method SendSensorData(dataSize: nat, now: nat) returns (ok: bool)
      modifies this`sensorDataQueue
      ensures (ok, sensorDataQueue) == Enqueue(old(sensorDataQueue), DataMessage(SensorReading, dataSize, now))
    {
      ok, sensorDataQueue := Enqueue(sensorDataQueue, DataMessage(SensorReading, dataSize, now)).0,
                             Enqueue(sensorDataQueue, DataMessage(SensorReading, dataSize, now)).1;
    }

    /** Suspend and resume the inference and federation tasks as the device
        state demands, then queue a state update; nothing happens without a
        state machine. */
    method UpdateTaskStates(now: nat)
      requires Valid()
      modifies this`inferenceTask, this`federationTask, this`stateUpdateQueue
      ensures Valid()
      ensures stateMachine == null ==> unchanged(this`inferenceTask, this`federationTask, this`stateUpdateQueue)
      ensures stateMachine != null ==>
        && var gate := GateFor(stateMachine.currentState);
        && inferenceTask == WithSuspended(old(inferenceTask), !gate.inferenceRuns)
        && federationTask == WithSuspended(old(federationTask), !gate.federationRuns)
        && stateUpdateQueue == Enqueue(old(stateUpdateQueue),
             StateUpdateMessage(stateMachine.currentState, stateMachine.federateStatus, now)).1
      ensures stateMachine != null ==> Gates() == Regated(old(Gates()), stateMachine.Snap(), now)
    {
      if stateMachine == null {
        return;
      }
      var currentState := stateMachine.currentState;
      match currentState {
        case DeviceInitializing =>
          SuspendInferenceTask();
          SuspendFederationTask();
        case InferenceMode =>
          ResumeInferenceTask();
          SuspendFederationTask();
        case FederationTraining =>
          ResumeFederationTask();
          SuspendInferenceTask();
        case FederationRecovery =>
          ResumeFederationTask();
          SuspendInferenceTask();
        case DeviceError =>
          SuspendInferenceTask();
          SuspendFederationTask();
      }
      var _ := SendStateUpdate(currentState, now);
    }

    /** Take the model mutex; false when it was never created or is held
        (the one-second wait for another task to give it back is not
        modelled). */
    method RequestModelAccess() returns (granted: bool)
      modifies this`modelMutex
      ensures granted <==> old(modelMutex) == Some(Mutex(true))
      ensures modelMutex == (if granted then Some(Mutex(false)) else old(modelMutex))
    {
      if modelMutex.Some? {
        if modelMutex.value.available {
          modelMutex := Some(Mutex(false));
          return true;
        }
        return false;
      }
      return false;
    }

    method ReleaseModelAccess()
      modifies this`modelMutex
      ensures modelMutex == (if old(modelMutex).Some? then Some(Mutex(true)) else None)
    {
      if modelMutex.Some? {
        modelMutex := Some(Mutex(true));
      }
    }

    method RequestNetworkAccess() returns (granted: bool)
      modifies this`networkMutex
      ensures granted <==> old(networkMutex) == Some(Mutex(true))
      ensures networkMutex == (if granted then Some(Mutex(false)) else old(networkMutex))
    {
      if networkMutex.Some? {
        if networkMutex.value.available {
          networkMutex := Some(Mutex(false));
          return true;
        }
        return false;
      }
      return false;
    }

    method ReleaseNetworkAccess()
      modifies this`networkMutex
      ensures networkMutex == (if old(networkMutex).Some? then Some(Mutex(true)) else None)
    {
      if networkMutex.Some? {
        networkMutex := Some(Mutex(true));
      }
    }

    /** Healthy exactly when the tasks were created, all four handles exist
        and every stack keeps more than 5% unused. */
    method AreTasksHealthy(w: Watermarks) returns (healthy: bool)
      ensures healthy <==> tasksCreated && AllTasksPresent() && StacksHealthy(w)
    {
      if !tasksCreated {
        return false;
      }
      if communicationTask.None? || federationTask.None? || inferenceTask.None? || sensorTask.None? {
        return false;
      }
      var minComm := COMMUNICATION_STACK_SIZE * 5 / 100;
      var minFed := FEDERATION_STACK_SIZE * 5 / 100;
      var minInf := INFERENCE_STACK_SIZE * 5 / 100;
      var minSensor := SENSOR_STACK_SIZE * 5 / 100;
      healthy := w.communication > minComm && w.federation > minFed
        && w.inference > minInf && w.sensor > minSensor;
    }

    /** Re-gate the tasks when the state changed since the last handled
        update, or when 30 s have passed on the wrapping millisecond clock. */
    method HandleStateTransition(newState: SM.DeviceState, now: nat) returns (handled: bool)
      requires Valid() && now < CLOCK_MODULUS
      modifies this`inferenceTask, this`federationTask, this`stateUpdateQueue
      modifies this`lastHandledState, this`lastHandledTime
      ensures Valid()
      ensures handled <==> ShouldHandle(newState, old(lastHandledState), old(lastHandledTime), now)
      ensures handled ==> lastHandledState == newState && lastHandledTime == now
      ensures handled && stateMachine == null ==> unchanged(this`inferenceTask, this`federationTask, this`stateUpdateQueue)
      ensures handled && stateMachine != null ==>
        && var gate := GateFor(stateMachine.currentState);
        && inferenceTask == WithSuspended(old(inferenceTask), !gate.inferenceRuns)
        && federationTask == WithSuspended(old(federationTask), !gate.federationRuns)
        && stateUpdateQueue == Enqueue(old(stateUpdateQueue),
             StateUpdateMessage(stateMachine.currentState, stateMachine.federateStatus, now)).1
      ensures !handled ==> unchanged(this`inferenceTask, this`federationTask, this`stateUpdateQueue)
      ensures !handled ==> lastHandledState == old(lastHandledState) && lastHandledTime == old(lastHandledTime)
    {
      handled := ShouldHandle(newState, lastHandledState, lastHandledTime, now);
      if handled {
        UpdateTaskStates(now);
        lastHandledState := newState;
        lastHandledTime := now;
      }
    }
  }

  /** Whether `handleStateTransition` acts: on a new state, or on a repeat
      more than 30 s after the last handled one, the difference taken on
      the wrapping 32-bit clock. */
  predicate ShouldHandle(newState: SM.DeviceState, lastState: SM.DeviceState, lastTime: nat, now: nat)
  {
    newState != lastState || (now - lastTime) % CLOCK_MODULUS > STATE_REFRESH_INTERVAL
  }

  /** A repeat of the last handled state is handled again exactly when more
      than 30 s of real time have passed, whether or not the clock wrapped
      in between (for gaps shorter than one clock period). */
  lemma RepeatHandledOnlyAfterInterval(state: SM.DeviceState, lastTime: nat, elapsed: nat)
    requires lastTime < CLOCK_MODULUS && elapsed < CLOCK_MODULUS
    ensures ShouldHandle(state, state, lastTime, (lastTime + elapsed) % CLOCK_MODULUS)
      <==> elapsed > STATE_REFRESH_INTERVAL
  {
    var now := (lastTime + elapsed) % CLOCK_MODULUS;
    if lastTime + elapsed < CLOCK_MODULUS {
      assert now - lastTime == elapsed;
    } else {
      assert now == lastTime + elapsed - CLOCK_MODULUS;
      assert now - lastTime == elapsed - CLOCK_MODULUS;
    }
    assert (now - lastTime) % CLOCK_MODULUS == elapsed;
  }
}
