# Atlantico device: a Dafny model

This project models the firmware of an ESP32 device that takes part in
federated learning over MQTT, together with the log colorizer that post-processes its
serial output. The firmware is written in C++ and the colorizer in Python.

Modelled parts of the firmware:

- **Device state machine**: the device states (initialising, inference, federation training,
  federation recovery, error), the federation status kept beside them, the transition tables
  and error escalation after three reports.
- **Shared records**: the legacy federation and model-state codes persisted in flash, the model
  configuration with its defaults, the per-class and multi-class classifier metrics, and the
  persisted device configuration.
- **Model manager**: the current and new network, their metrics and configurations. Each is an
  owning pointer; the model keeps a log of the objects the manager deletes.
- **Network manager**: the command envelopes sent to the federation server, the bounded MQTT
  reconnection schedule with its back-off, the one-send-at-a-time guard, and the layout of the
  model document published after training.
- **Task coordinator**: the four FreeRTOS tasks, four queues and three mutexes. Tasks are
  suspended or resumed by device state, queues reject messages when full, mutexes are taken
  and given back, and a stack health check applies a 5% threshold.
- **Device manager**: boot, saving and loading the configuration file, the MQTT command
  handlers (`federate_join`, `federate_start`, `federate_end`, `federate_unsubscribe`,
  `federate_alive`), the train-then-send cycle, and the bridge between the legacy federation
  variables and the state machine.
- **Legacy model transfer** (`include/ModelUtil.cpp`) and the partitioned weights transfer of
  `examples/fonte.cpp`: a start marker, chunks, then an end marker. Both come with their
  receivers and with `split`.

Modelled parts of the log colorizer:

- its buffered line assembly over chunked input;
- `str.strip`;
- the three regular expressions, with their groups;
- theme loading;
- the painting of each group in ANSI colours.

Hardware and library calls are parameters of the model. These include:

- the millisecond clock;
- whether Wi-Fi comes back and how each MQTT attempt ends;
- whether the kernel can allocate a task, queue or mutex;
- the stack watermarks the kernel reports;
- the outcome of a training run;
- what a JSON document decodes to;
- whether flash accepts writes.

Each component is a class with the source's fields. Its methods state their new state
against pure specification functions, and the lemmas beside those functions state the
properties the source relies on.

Modules, one per file:

- `StateMachine` (`state_machine.dfy`)
- `Types` (`types.dfy`)
- `ModelManager` (`model_manager.dfy`)
- `NetworkManager` (`network_manager.dfy`)
- `TaskCoordinator` (`task_coordinator.dfy`)
- `DeviceManager` (`device_manager.dfy`)
- `ModelUtil` (`model_util.dfy`)
- `Fonte` (`fonte.dfy`)
- `LogColorizer` (`log_colorizer.dfy`)
- `Framing` (`framing.dfy`): the marker framing shared by the transfers
- `Text` (`text.dfy`): `indexOf` and delimiter splitting, shared by `split` and Python's
  `str.split`
- `Wrappers` (`wrappers.dfy`): `Option`

## Model

| member | source | states |
|---|---|---|
| StateMachine.Initial | src/StateMachine.cpp:4-14 | A new machine is initialising, with federation status None and no errors counted. |
| StateMachine.Transition | src/StateMachine.cpp:16-35 | A move is accepted exactly when the transition table allows it. A refused move changes nothing. An accepted move records the state left and stamps both times. Leaving DeviceError clears the error count; otherwise the count is kept. The federation status is untouched. |
| StateMachine.WithStatus | src/StateMachine.cpp:37-48 | A status change is accepted exactly when the status table allows it, and then only the status changes. |
| StateMachine.Cleared | src/StateMachine.cpp:151-154 | Clearing sets the error count to 0 and changes nothing else. |
| StateMachine.AfterError | src/StateMachine.cpp:138-149 | A report adds one error. It remembers the state it happened in unless the device is already in DeviceError. From the third error on, the device is in DeviceError. |
| StateMachine.NeverBackToInitializing | src/StateMachine.cpp:50-78 | Once initialised, no sequence of requested moves returns the device to initialising. |
| StateMachine.ErrorAlwaysReachable | src/StateMachine.cpp:50-78 | Every state may move to DeviceError. DeviceError may never move to initialising. |
| StateMachine.InferenceExcludesFederation | src/StateMachine.cpp:102-128 | When inference is allowed, federation is not active. A federation that may start may not be stopped. |
| StateMachine.ErrorEscalation | src/StateMachine.cpp:138-149 | Starting outside DeviceError, n reports add n to the count. The device stays where it was below three errors and is in DeviceError from three on. The state before the error is remembered. |
| StateMachine.StaysInError | src/StateMachine.cpp:138-149 | Reports made in DeviceError keep the device there and keep counting. |
| StateMachine.RecoveryAllowsRetry | src/StateMachine.cpp:156-158 | Leaving DeviceError for an allowed state resets the count, so retrying is allowed again. |
| StateMachine.TestScenario | test_statemachine.cpp:8-70 | The test's run holds: start, subscribe, train, refused return to initialising, and three errors that end in DeviceError. |
| StateMachine.StateMachine.constructor | src/StateMachine.cpp:4-14 | The fields are the initial snapshot at time `now`. |
| StateMachine.StateMachine.TransitionTo | src/StateMachine.cpp:16-35 | The result and the new fields are the `Transition` of the old fields. |
| StateMachine.StateMachine.SetFederateStatus | src/StateMachine.cpp:37-48 | The result and the new fields are the `WithStatus` of the old fields. |
| StateMachine.StateMachine.ReportError | src/StateMachine.cpp:138-149 | The new fields are the `AfterError` of the old fields. |
| StateMachine.StateMachine.ClearErrors | src/StateMachine.cpp:151-154 | The new fields are the `Cleared` old fields. |
| Types.ModelStateOf | src/DeviceManager.cpp:195 | A cast from any integer gives a well-formed state whose code is that integer. Codes 0 to 4 give the named states. |
| Types.FederateStateOf | src/DeviceManager.cpp:194 | A cast from any integer gives a well-formed federation state whose code is that integer. |
| Types.CodesRoundTrip | src/DeviceManager.cpp:194-216 | Writing a state as its integer code and casting it back gives the same state. |
| Types.NewModelConfig | include/Types.h:119-124 | The configuration holds the given values. Epochs default to 1, the seed to 10, and the learning rates to 0.3333 and 0.0666. |
| Types.BuiltFromWellFormed | src/ModelManager.cpp:59-79 | The network built from a configuration of at least two non-empty widths has well-formed, chained layers. |
| Types.TransferredModel.constructor | include/Types.h:7-17 | The record holds the given arrays, decoding time and round. |
| Types.ClassCounts.Accuracy | src/Types.cpp:9-13 | Accuracy lies in [0, 1]. It is 1 exactly when something was predicted and there are no false positives or false negatives. |
| Types.ClassCounts.Precision | src/Types.cpp:15-18 | Precision lies in [0, 1]. It is 0 exactly without true positives, and 1 exactly with true positives and no false positives. |
| Types.ClassCounts.Recall | src/Types.cpp:20-23 | Recall lies in [0, 1]. It is 0 exactly without true positives, and 1 exactly with true positives and no false negatives. |
| Types.F1Bounds | src/Types.cpp:25-30 | F1 lies between precision and recall, and so in [0, 1]. It is 0 exactly when there is no true positive. |
| Types.HarmonicMeanBetween | src/Types.cpp:25-30 | 2pr/(p+r), or 0 when both are 0, lies between p and r. |
| Types.CorrectAtMostTotal | src/Types.cpp:41-50 | Summed over classes, correct predictions never exceed all predictions. |
| Types.PooledAccuracyBounds | src/Types.cpp:41-50 | Pooled accuracy is a proportion. |
| Types.SumPrecisionBounded | src/Types.cpp:52-58 | The summed per-class precisions lie between 0 and the number of classes. |
| Types.SumRecallBounded | src/Types.cpp:60-66 | The summed per-class recalls lie between 0 and the number of classes. |
| Types.SumF1Bounded | src/Types.cpp:68-74 | The summed per-class F1 scores lie between 0 and the number of classes. |
| Types.MeanBounded | src/Types.cpp:52-74 | A mean of values in [0, 1] is in [0, 1]. |
| Types.MultiClassMetrics.TotalPredictions | src/Types.cpp:33-39 | The loop returns the predictions summed over all classes. |
| Types.MultiClassMetrics.Accuracy | src/Types.cpp:41-50 | The loop returns the pooled accuracy over all classes, a value in [0, 1]. |
| Types.MultiClassMetrics.Precision | src/Types.cpp:52-58 | The loop returns the mean per-class precision, a value in [0, 1]. |
| Types.MultiClassMetrics.Recall | src/Types.cpp:60-66 | The loop returns the mean per-class recall, a value in [0, 1]. |
| Types.MultiClassMetrics.F1Score | src/Types.cpp:68-74 | The loop returns the mean per-class F1 score, a value in [0, 1]. |
| Types.MultiClassMetrics.BalancedAccuracy | src/Types.cpp:76-78 | The same value as the pooled accuracy. |
| Types.MultiClassMetrics.BalancedPrecision | src/Types.cpp:80-82 | The same value as the mean precision. |
| Types.MultiClassMetrics.BalancedRecall | src/Types.cpp:84-86 | The same value as the mean recall. |
| Types.MultiClassMetrics.BalancedF1Score | src/Types.cpp:88-90 | The same value as the mean F1 score. |
| Types.DeviceConfig.constructor | include/Types.h:127-136 | Round -1, federation state None, model state idle, and no metrics or configuration held. |
| Types.DeviceConfig.Reset | src/Types.cpp:110-124 | Every field is back at its initial value and the owned objects are released. |
| ModelManager.FreshTrainingMetrics | src/ModelManager.cpp:207-209 | Training reports one counter set per output class, and every counter set is zero. |
| ModelManager.ZeroCountsTotal | src/ModelManager.cpp:207-209 | Zeroed counter sets total no predictions. |
| ModelManager.TrainingMetricsReportZeroAccuracy | src/ModelManager.cpp:264-272 | The metrics handed back after training always report pooled accuracy 0. |
| ModelManager.ModelManager.constructor | src/ModelManager.cpp:5-13 | Every slot is empty, the dataset size is 0 and nothing has been deleted. |
| ModelManager.ModelManager.CleanupModels | src/ModelManager.cpp:19-44 | Every slot is emptied. Every object held is deleted once, in slot order. |
| ModelManager.ModelManager.SetupFederatedModel | src/ModelManager.cpp:59-78 | The previous new model is always deleted. A new one is built exactly when a federation configuration exists. Nothing else changes. |
| ModelManager.ModelManager.TrainNewModel | src/ModelManager.cpp:186-273 | With missing dataset files: no metrics, an unchanged model and dataset size 0. Otherwise: the trained weights in an unchanged shape, the first epoch's sample count, and zeroed metrics for each output class. |
| ModelManager.LoadModelFromFlashAsWritten | src/ModelManager.cpp:101-130 | As written: no model when the file cannot be opened, and a null dereference exactly when it opens without a federation configuration. |
| ModelManager.LoadModelFromFlash | src/ModelManager.cpp:101-130 | Corrected: a model exactly when the file opens and a configuration exists. It is then what the code as written loads: the stored layers with the configuration's learning rates. |
| ModelManager.LoadWithoutConfigDereferencesNull | src/ModelManager.cpp:115-120 | Without a configuration the code as written dereferences null; the corrected load treats it like a missing file. |
| ModelManager.ModelManager.TransformDataToModel | src/ModelManager.cpp:131-184 | There is no model exactly when the document does not parse or its precision tag is not the compiled width's. Otherwise it returns fresh arrays equal to the document's biases and weights, and the document's integer round or -1. |
| ModelManager.ModelManager.PredictFromCurrentModel | src/ModelManager.cpp:334-342 | No output without a current model. Otherwise the output is the forward pass of the current model. |
| ModelManager.ModelManager.CompareMetrics | src/ModelManager.cpp:344-349 | The new metrics are better exactly when both exist and the new pooled accuracy is strictly higher. |
| ModelManager.ModelManager.SetCurrentModelMetrics | src/ModelManager.cpp:351-356 | The previous metrics are deleted and the given ones installed. |
| ModelManager.ModelManager.SetNewModelMetrics | src/ModelManager.cpp:358-363 | The previous metrics are deleted and the given ones installed. |
| ModelManager.ModelManager.SetNewModel | include/ModelManager.h:56 | A plain store that keeps the slot invariant. |
| ModelManager.ModelManager.SetFederateModelConfig | include/ModelManager.h:60 | A plain store that keeps the slot invariant. |
| NetworkManager.ModelStateToString | src/NetworkManager.cpp:233-249 | The label is "unknown" exactly for a code outside the enumeration. |
| NetworkManager.ModelStateLabelsDistinct | src/NetworkManager.cpp:233-249 | Distinct known states have distinct labels. |
| NetworkManager.EnvelopeFields | src/NetworkManager.cpp:264-289 | JOIN sends the command and client, RESUME adds the round, and ALIVE adds the state label. READY and LEAVE send nothing. Each envelope names its own command and carries the given values. |
| NetworkManager.InputsIndex | src/NetworkManager.cpp:344-347 | The input-width list has one entry per layer, holding that layer's width. |
| NetworkManager.BiasesIndex | src/NetworkManager.cpp:377-390 | The bias list has one entry per layer, holding that layer's single bias. |
| NetworkManager.ModelShapeWidths | src/NetworkManager.cpp:344-348 | The "model" array has one entry more than there are layers. Entry i is the input width of layer i and entry i + 1 its output width. |
| NetworkManager.ModelShapeOfConfig | src/NetworkManager.cpp:344-348 | For a network built from a configuration, the "model" array is the configured list of widths. |
| NetworkManager.RowsLength | src/NetworkManager.cpp:392-414 | A matrix of rows of n weights, flattened, holds rows * n weights. |
| NetworkManager.RowsIndex | src/NetworkManager.cpp:392-414 | Weight (j, k) of a flattened matrix sits at j * n + k. |
| NetworkManager.WeightOffsetPrefix | src/NetworkManager.cpp:397-401 | A layer's offset depends only on the layers before it. |
| NetworkManager.OffsetMono | src/NetworkManager.cpp:397-401 | Offsets grow with the layer index. |
| NetworkManager.FlatWeightsLength | src/NetworkManager.cpp:392-414 | The "weights" array holds the sum over all layers of inputs * outputs. |
| NetworkManager.FlatWeightsIndex | src/NetworkManager.cpp:392-414 | Weight (i, j, k) sits at the index computed for the single global weight array: the weights of the layers before i, then j * inputs + k. |
| NetworkManager.ModelLayout | src/NetworkManager.cpp:344-348 | The loop builds the "model" array. |
| NetworkManager.BiasLayout | src/NetworkManager.cpp:377-390 | The loop builds one bias per layer, in order. |
| NetworkManager.WeightLayout | src/NetworkManager.cpp:392-414 | The triple loop builds the weights layer by layer, output-major. |
| NetworkManager.CountLayout | src/NetworkManager.cpp:337-342 | The four counter arrays hold each class's counts in class order. |
| NetworkManager.BuildModelMessage | src/NetworkManager.cpp:316-414 | The document holds the precision tag, the client, the four metrics, the counters, the shape, the timings, the biases and the weights of the given network. |
| NetworkManager.FirstSuccess | src/NetworkManager.cpp:77-115 | The first of the five allowed attempts that connects, or 5. All earlier attempts failed. |
| NetworkManager.BackoffTotal | src/NetworkManager.cpp:109-114 | After n failures the pauses total 1000 * n * (n + 1) ms. A full round of failures waits at most 20 s. |
| NetworkManager.NetworkManager.constructor | src/NetworkManager.cpp:5-15 | No link, no send in progress and nothing published. |
| NetworkManager.NetworkManager.ConnectToMQTT | src/NetworkManager.cpp:74-119 | Connected exactly when one of the five attempts succeeds. The pauses taken are the stale-session pause, if a session existed, then 2000 ms times the attempt number after each failed attempt but the last. |
| NetworkManager.NetworkManager.EnsureConnected | src/NetworkManager.cpp:125-147 | Wi-Fi is restored first, then MQTT; MQTT is not tried without Wi-Fi. The result is true exactly when both links end up. |
| NetworkManager.NetworkManager.SetupMQTT | src/NetworkManager.cpp:149-165 | Waits for Wi-Fi, then succeeds exactly when the MQTT schedule connects. |
| NetworkManager.NetworkManager.ProcessMessages | src/NetworkManager.cpp:221-232 | Nothing is polled while a send is in progress. Otherwise the broker is polled exactly when the links can be restored. |
| NetworkManager.NetworkManager.SendMessageToNetwork | src/NetworkManager.cpp:250-296 | Publishes the command's envelope on the commands topic only when the links are up and no send is in progress. The Wi-Fi and MQTT flags end as the reconnection left them. The guard is restored afterwards. |
| NetworkManager.NetworkManager.SendModelToNetwork | src/NetworkManager.cpp:298-440 | When the links are up, it publishes the binary copy if one could be staged in flash, then the model document. Otherwise it publishes nothing. The Wi-Fi and MQTT flags end as the reconnection left them. The guard is released afterwards. |
| TaskCoordinator.WithSuspended | src/TaskCoordinator.cpp:228-251 | Suspending or resuming a missing task does nothing. An existing task keeps its stack and priority. |
| TaskCoordinator.GateAgreesWithStateMachine | src/TaskCoordinator.cpp:187-226 | Inference and federation never run together. Federation runs only while federation is active. Inference runs exactly in inference mode, and whenever inference is allowed. |
| TaskCoordinator.Enqueue | src/TaskCoordinator.cpp:252-301 | A send succeeds exactly on an existing queue with room, and appends the message. A failed send changes nothing. |
| TaskCoordinator.MinStack | src/TaskCoordinator.cpp:367-370 | The threshold is 5% of the stack, truncated: the largest whole number of words not above 5%. |
| TaskCoordinator.AboveMinStack | src/TaskCoordinator.cpp:367-375 | Exceeding the truncated threshold is the same as exceeding 5% exactly. |
| TaskCoordinator.StacksHealthyMeansFivePercent | src/TaskCoordinator.cpp:367-375 | The stacks are healthy exactly when each task keeps more than 5% of its stack unused. |
| TaskCoordinator.TaskCoordinator.constructor | src/TaskCoordinator.cpp:11-32 | Every handle is null and nothing is running. |
| TaskCoordinator.TaskCoordinator.CreateSemaphores | src/TaskCoordinator.cpp:563-569 | Each mutex exists as allocated. The result is true exactly when all three exist. |
| TaskCoordinator.TaskCoordinator.CreateQueues | src/TaskCoordinator.cpp:553-561 | Each queue exists, empty, as allocated. The result is true exactly when all four exist. |
| TaskCoordinator.TaskCoordinator.DeleteSemaphores | src/TaskCoordinator.cpp:590-603 | No mutex is left. |
| TaskCoordinator.TaskCoordinator.DeleteQueues | src/TaskCoordinator.cpp:571-588 | No queue is left. |
| TaskCoordinator.TaskCoordinator.Initialize | src/TaskCoordinator.cpp:38-59 | Succeeds exactly when every mutex and queue was allocated. A mutex failure keeps the partial mutexes. A queue failure deletes the mutexes but keeps the partial queues. |
| TaskCoordinator.TaskCoordinator.StartTasks | src/TaskCoordinator.cpp:61-145 | A second start succeeds without change. Otherwise the tasks are created in order with their stack sizes and priorities; a failure stops at that task, and the handles of the tasks not created keep their previous values. The tasks count as created only when all four exist. |
| TaskCoordinator.TaskCoordinator.StopTasks | src/TaskCoordinator.cpp:147-175 | Every task is deleted and coordination stops. |
| TaskCoordinator.TaskCoordinator.Shutdown | src/TaskCoordinator.cpp:177-185 | Tasks, queues and mutexes are all gone. |
| TaskCoordinator.TaskCoordinator.SuspendInferenceTask | src/TaskCoordinator.cpp:228-232 | The inference task, if it exists, is suspended. |
| TaskCoordinator.TaskCoordinator.ResumeInferenceTask | src/TaskCoordinator.cpp:234-238 | The inference task, if it exists, is resumed. |
| TaskCoordinator.TaskCoordinator.SuspendFederationTask | src/TaskCoordinator.cpp:240-244 | The federation task, if it exists, is suspended. |
| TaskCoordinator.TaskCoordinator.ResumeFederationTask | src/TaskCoordinator.cpp:246-250 | The federation task, if it exists, is resumed. |
| TaskCoordinator.TaskCoordinator.SendStateUpdate | src/TaskCoordinator.cpp:252-262 | Queues the state with the machine's federation status and the time, under the queue rule. |
| TaskCoordinator.TaskCoordinator.SendFederationData | src/TaskCoordinator.cpp:264-275 | Queues a model-update message under the queue rule. |
| TaskCoordinator.TaskCoordinator.SendInferenceData | src/TaskCoordinator.cpp:277-288 | Queues an inference request under the queue rule. |
| TaskCoordinator.TaskCoordinator.SendSensorData | src/TaskCoordinator.cpp:290-301 | Queues a sensor reading under the queue rule. |
| TaskCoordinator.TaskCoordinator.UpdateTaskStates | src/TaskCoordinator.cpp:187-226 | Without a state machine nothing changes. Otherwise inference and federation are suspended or resumed as the state's gate says, and the state is queued: the coordinator becomes `Regated` in the state machine's snapshot. |
| TaskCoordinator.RegatedFollowsState | src/TaskCoordinator.cpp:187-226 | A re-gate makes the tasks follow the snapshot: inference runs exactly in inference mode, federation runs only while federation is active, never both, no task is created or removed, and a queue with room gains exactly the state message. |
| TaskCoordinator.TaskCoordinator.RequestModelAccess | src/TaskCoordinator.cpp:303-308 | Granted exactly when the mutex exists and is free, and it is then held. |
| TaskCoordinator.TaskCoordinator.ReleaseModelAccess | src/TaskCoordinator.cpp:310-314 | An existing mutex is free again. |
| TaskCoordinator.TaskCoordinator.RequestNetworkAccess | src/TaskCoordinator.cpp:316-321 | Granted exactly when the mutex exists and is free, and it is then held. |
| TaskCoordinator.TaskCoordinator.ReleaseNetworkAccess | src/TaskCoordinator.cpp:323-327 | An existing mutex is free again. |
| TaskCoordinator.TaskCoordinator.AreTasksHealthy | src/TaskCoordinator.cpp:329-397 | Healthy exactly when the tasks were created, all four exist and every stack keeps more than 5% unused. |
| TaskCoordinator.TaskCoordinator.HandleStateTransition | src/TaskCoordinator.cpp:605-622 | Handled exactly when the state changed or more than 30 s passed on the wrapping 32-bit clock (`ShouldHandle`). A handled state is remembered with its time; with a state machine, inference and federation are then suspended or resumed as the state's gate says and the state is queued. Otherwise nothing changes. |
| TaskCoordinator.RepeatHandledOnlyAfterInterval | src/TaskCoordinator.cpp:605-622 | A repeated state is handled again exactly when more than 30 s have elapsed, even when the 32-bit clock wrapped in between. |
| DeviceManager.Entries | src/DeviceManager.cpp:213-216 | The saved object has exactly the three keys. |
| DeviceManager.Decoded | src/DeviceManager.cpp:192-195 | Loading gives well-formed states whose codes are the stored integers. A missing key reads as 0. |
| DeviceManager.SaveLoadRoundTrip | src/DeviceManager.cpp:179-225 | Loading what was saved gives back the saved round and states. |
| DeviceManager.MissingKeysLoadAsZero | src/DeviceManager.cpp:192-195 | An object without the keys loads as round 0, state None and model idle. |
| DeviceManager.FederateModelConfig | src/DeviceManager.cpp:439-481 | The configuration has the command's widths and activations. Each optional member is taken when present, otherwise the constructor's default. |
| DeviceManager.StartedTrains | src/DeviceManager.cpp:714-737 | A start that is allowed leaves the device training with status Training, coming from inference. |
| DeviceManager.StoppedAllowsInference | src/DeviceManager.cpp:739-762 | A stop that is allowed returns the device to inference with status None. |
| DeviceManager.ResetEndsFederation | src/DeviceManager.cpp:797-809 | After a reset the device no longer federates. A device that was training is back in inference. |
| DeviceManager.SyncedIdempotent | src/DeviceManager.cpp:646-671 | Syncing the state machine twice with the legacy state is syncing once. |
| DeviceManager.ResumeKeepsStatusNone | src/DeviceManager.cpp:646-671 | A rebooted device that resumes training enters federation training, but its status stays None. |
| DeviceManager.StartNeedsSubscribedStatus | src/DeviceManager.cpp:714-737 | A freshly booted device cannot start a federation. After syncing a stored SUBSCRIBED state it can. |
| DeviceManager.StartGating | src/DeviceManager.cpp:714-737 | When a start is allowed: federation runs, inference is suspended, no task is created or removed, and the training state is queued with the status it still has. Otherwise the coordinator is unchanged. |
| DeviceManager.StopGating | src/DeviceManager.cpp:739-762 | When a stop is allowed: inference runs, federation is suspended, no task is created or removed, and inference mode is queued. Otherwise the coordinator is unchanged. |
| DeviceManager.ResetGating | src/DeviceManager.cpp:797-809 | For a federating device: inference runs, federation is suspended, and inference mode with status None is queued. Otherwise the coordinator is unchanged. |
| DeviceManager.SyncedGatingFollowsState | src/DeviceManager.cpp:646-671 | After `updateDeviceState` the coordinator agrees with the synced state: inference runs exactly in inference mode, federation runs only while federation is active, and never both. |
| DeviceManager.DeviceManager.constructor | src/DeviceManager.cpp:9-30 | A fresh state machine and model manager, no network, no configuration, and legacy values -1, None and idle. |
| DeviceManager.DeviceManager.SaveDeviceConfig | src/DeviceManager.cpp:201-225 | The configuration holds the legacy values. The file holds their entries when flash is writable, and the result says whether it was. |
| DeviceManager.DeviceManager.LoadDeviceConfig | src/DeviceManager.cpp:179-199 | Succeeds exactly when the file parses, and then the fresh configuration holds the decoded values. |
| DeviceManager.DeviceManager.TransitionToState | src/DeviceManager.cpp:673-697 | The state machine follows `Transition`. An accepted move re-gates the coordinator in the new snapshot (`Regated`); a refused one leaves its tasks and queue unchanged (`RegatedIf`). |
| DeviceManager.DeviceManager.UpdateFederationStatus | src/DeviceManager.cpp:699-712 | The state machine follows `WithStatus`. |
| DeviceManager.DeviceManager.StartFederationTraining | src/DeviceManager.cpp:714-737 | Accepted exactly when a start is allowed. Then training begins, the legacy state is TRAINING, and the coordinator runs federation, suspends inference and queues the training state (`StartGating`). Otherwise nothing changes, the coordinator included. |
| DeviceManager.DeviceManager.StopFederationTraining | src/DeviceManager.cpp:739-762 | Accepted exactly when a stop is allowed. Then inference resumes, the legacy state is NONE, and the coordinator runs inference, suspends federation and queues inference mode (`StopGating`). Otherwise nothing changes, the coordinator included. |
| DeviceManager.DeviceManager.ResetFederationState | src/DeviceManager.cpp:797-809 | The legacy values return to -1, None and idle, and the state machine is `Reset`. A device that was federating has its coordinator re-gated for inference, with inference mode and status None queued; otherwise the coordinator is unchanged (`ResetGating`). |
| DeviceManager.DeviceManager.UpdateDeviceState | src/DeviceManager.cpp:646-671 | The state machine is `Synced` with the legacy federation state. The coordinator is re-gated by the move, when one is accepted, and then once more in the synced snapshot (`SyncedGating`). |
| DeviceManager.DeviceManager.SyncStateMachine | src/DeviceManager.cpp:646-665 | The state machine is `Synced`; the coordinator is re-gated only by the move, when one is made and accepted (`SyncMoveGating`). |
| DeviceManager.DeviceManager.HandleFederationCommand | src/DeviceManager.cpp:764-795 | START is accepted exactly when a start is allowed, and then the machine is `Started`, the legacy state TRAINING and the coordinator `StartGating`; UNSUBSCRIBE likewise with `Stopped`, NONE and `StopGating`. A refused command changes none of them. SUBSCRIBE and END give their status outcomes and leave the coordinator unchanged; an unknown command is refused and changes nothing. |
| DeviceManager.DeviceManager.ProcessModel | src/DeviceManager.cpp:267-335 | While federating: a ready model is trained, its metrics kept and the state DONE_TRAINING saved. A trained model with metrics is published, the state set to WAITING_DOWNLOAD and the status set to Ending. Nothing happens otherwise. |
| DeviceManager.DeviceManager.TrainReadyModel | src/DeviceManager.cpp:275-300 | The trained model's metrics are installed and DONE_TRAINING is saved, even when the training files were missing. |
| DeviceManager.DeviceManager.SendTrainedModel | src/DeviceManager.cpp:302-328 | The model and its metrics are published. The state becomes WAITING_DOWNLOAD, the status Ending, and both are saved. |
| DeviceManager.DeviceManager.OnModelReceived | src/DeviceManager.cpp:344-356 | Reports the round of a document that decodes, and nothing otherwise. |
| DeviceManager.DeviceManager.OnRawModelReceived | src/DeviceManager.cpp:358-399 | A model read back from the staged file by the corrected `LoadModelFromFlash` becomes the new model, the previous new model is entered in the deletion log, and READY_TO_TRAIN is saved. Nothing changes otherwise. |
| DeviceManager.DeviceManager.OnJoin | src/DeviceManager.cpp:418-429 | Accepted only from NONE or SUBSCRIBED. It sets SUBSCRIBED, sends JOIN when the links are up, and saves. |
| DeviceManager.DeviceManager.OnStart | src/DeviceManager.cpp:430-512 | Only when SUBSCRIBED with a config: the federation model is built from that config. If a start is allowed, training begins at round 0, READY_TO_TRAIN, saved, and the coordinator is `StartGating`; if not, an error is reported and the coordinator is unchanged. Without a config or SUBSCRIBED nothing changes. |
| DeviceManager.DeviceManager.BeginTraining | src/DeviceManager.cpp:487-500 | An allowed start begins training with round 0 and READY_TO_TRAIN, saved, and re-gates the coordinator for training. A refused start reports an error and leaves the coordinator unchanged. |
| DeviceManager.DeviceManager.RecordTrainingStart | src/DeviceManager.cpp:488-495 | Round 0 and READY_TO_TRAIN, saved to flash when it is writable. |
| DeviceManager.DeviceManager.OnEnd | src/DeviceManager.cpp:513-521 | The status becomes Ending when allowed, the legacy state DONE, saved. |
| DeviceManager.DeviceManager.OnUnsubscribe | src/DeviceManager.cpp:522-529 | Resets the federation state, the coordinator as `ResetGating`, and saves the defaults. |
| DeviceManager.DeviceManager.OnCommandReceived | src/DeviceManager.cpp:401-535 | Dispatches each known command to its branch, with the state saved to flash and the messages published as that branch does; START builds the federation model from the command's configuration. The coordinator is `StartGating` after a START that goes ahead, `ResetGating` after UNSUBSCRIBE, and unchanged after every other document. An unparsable document or unknown command changes nothing. ALIVE only answers. |
| DeviceManager.DeviceManager.InitializeStateMachine | src/DeviceManager.cpp:596-610 | Succeeds exactly when the machine may stay in or enter initialising. |
| DeviceManager.DeviceManager.StartTaskCoordinator | src/DeviceManager.cpp:612-644 | Succeeds exactly when a network manager exists and every mutex, queue and task could be created. It then holds a fresh running coordinator with both tasks running and an empty state queue (`FreshGating`); after a failure none is held. |
| DeviceManager.NewCoordinator | src/DeviceManager.cpp:618-641 | A coordinator exists exactly when every mutex, queue and task could be created; it is fresh, over the given state machine, running, with both tasks running and an empty state queue. |
| DeviceManager.DeviceManager.RestoreConfig | src/DeviceManager.cpp:70-85 | A stored configuration replaces the legacy values. Training resumes exactly when it stored TRAINING or STARTING. |
| DeviceManager.DeviceManager.BootNetwork | src/DeviceManager.cpp:63-126 | The device name is set, the configuration restored and the network manager created. `setupMQTT`, `ensureConnected` and the RESUME send each use their own link schedule. RESUME is sent exactly when resuming and both links are up for the send, given the MQTT state the first two steps left (`BootMqtt`). Wi-Fi is up at the end, and the final MQTT flag is stated. |
| DeviceManager.DeviceManager.BootUp | src/DeviceManager.cpp:54-157 | Flash is never written, and only the name, configuration, legacy values, network manager, coordinator and state machine may change. Without the file system or the device definitions none of them changes, the coordinator's tasks and queue included. Otherwise the configuration is restored and RESUME published as `BootNetwork` states, and the device boots and enters inference. If the coordinator starts, the state machine is synced with the legacy state and the fresh coordinator is `SyncedGating` from the booted snapshot; if not, an error is reported. |
| DeviceManager.ConnectAtBoot | src/DeviceManager.cpp:115-126 | On a new network manager: Wi-Fi is up at the end, MQTT is as the three link schedules leave it, and RESUME is published exactly when resuming and the links are up for the send. |
| DeviceManager.DeviceManager.BootStateMachine | src/DeviceManager.cpp:132-157 | From initialising: into inference, then either a started coordinator and a state machine synced with the legacy state, the coordinator re-gated as `SyncedGating` from `FreshGating`, or no coordinator and one error reported. |
| ModelUtil.TransformDataToModel | include/ModelUtil.cpp:85-134 | No arrays exactly when the document does not parse or has the other width's tag. Otherwise the document's biases and weights, in order. |
| ModelUtil.PrecisionMismatchRejected | include/ModelUtil.cpp:98-109 | A document is rejected by at least one of the two compiled widths. |
| ModelUtil.ModelReceiver.constructor | include/ModelUtil.cpp:255-286 | Empty buffer, no new model, no training requested. |
| ModelUtil.AfterPayload | include/ModelUtil.cpp:258-284 | The start marker empties the buffer. The end marker leaves what the parser did not consume. Any other payload is appended. |
| ModelUtil.ModelReceiver.MqttCallback | include/ModelUtil.cpp:255-286 | Other topics are ignored. The buffer follows `AfterPayload`. On the end marker, a document that decodes replaces the new model and requests training. |
| ModelUtil.SendModelToNetwork | include/ModelUtil.cpp:307-366 | Publishes the start marker, then the document in non-empty chunks of at most size - 1 characters, then the end marker. The chunks concatenate to the document. |
| ModelUtil.SendReceiveRoundTrip | include/ModelUtil.cpp:255-366 | A receiver fed the sender's messages holds exactly the sent document at the end marker, and a parser that reads all of it leaves the buffer empty. |
| Framing.ChunksConcat | include/ModelUtil.cpp:344-358 | The chunks concatenate to the data. |
| Framing.ChunksBounded | include/ModelUtil.cpp:348-349 | Every chunk is non-empty and at most the chunk size. |
| Framing.ChunksCount | examples/fonte.cpp:326-356 | Every chunk but the last is full, so there are as few chunks as the size allows. |
| Framing.ChunksStep | examples/fonte.cpp:330-356 | One loop step takes the next min(size, remaining) characters off the reference cut. |
| Framing.Framed | examples/fonte.cpp:323-359 | A framed transfer begins with the start marker and ends with the end marker, with the chunks in between. |
| Framing.AbsorbAllAppend | include/ModelUtil.cpp:258-284 | Absorbing two runs of payloads is absorbing them one after the other. |
| Framing.AbsorbData | examples/fonte.cpp:1221-1224 | Data payloads that do not look like markers are appended in order. |
| Framing.TransferRoundTrip | examples/fonte.cpp:1166-1226 | After a whole framed transfer the receiver holds exactly the data sent, whatever it held before. |
| Fonte.Split | examples/fonte.cpp:464-480 | Writes the first min(pieces, maxParts) pieces into the array, and nothing for an empty string. The rest of the array is untouched. When every piece fits, the written pieces join back into the string. |
| Fonte.SplitWritten | examples/fonte.cpp:464-480 | When every piece was written, the written pieces join back into the string. |
| Fonte.SendWeightsViaMQTTPartitioned | examples/fonte.cpp:303-363 | Nothing is sent without the file. Otherwise, on the device's topic: the start marker, chunks of 1 to 128 characters, and the end marker. |
| Fonte.WeightsReceiver.constructor | examples/fonte.cpp:1166-1226 | The buffer starts empty. |
| Fonte.WeightsReceiver.MqttCallback | examples/fonte.cpp:1166-1226 | The buffer follows the framing rule, with the start marker tested first. |
| Fonte.PartitionedRoundTrip | examples/fonte.cpp:303-363 | A complete partitioned send leaves the receiver holding the weights file. |
| Text.IndexOf | examples/fonte.cpp:470 | The result is -1 or a position at or after `from` holding the character. |
| Text.IndexOfSkips | examples/fonte.cpp:470 | No earlier occurrence is skipped, and -1 means none at all. |
| Text.SegmentsFrom | examples/fonte.cpp:469-479 | There is always at least one piece. |
| Text.JoinSegments | log_colorizer.py:44 | The pieces joined with the delimiter give back the string. |
| Text.SegmentsFree | log_colorizer.py:44 | No piece contains the delimiter. |
| Text.SegmentsCount | log_colorizer.py:44 | A string with n delimiters has n + 1 pieces. |
| Text.IndexOfFirst | examples/fonte.cpp:470 | `indexOf` returns the first occurrence. |
| Text.SegmentsAfterPiece | log_colorizer.py:44 | A piece without the delimiter, followed by the delimiter, splits off as the first piece. |
| Text.SegmentsAfterTerminated | log_colorizer.py:44 | Terminated delimiter-free pieces split back into themselves. |
| Text.SegmentsAsTerminated | log_colorizer.py:44-53 | A string is its leading pieces, each followed by the delimiter, then its last piece. |
| LogColorizer.Span | log_colorizer.py:145 | A greedy run: all in the class, and it stops at the first character outside. |
| LogColorizer.Strip | log_colorizer.py:130 | The result has no whitespace at either end. It is empty exactly for a blank string, and never longer. |
| LogColorizer.StripParts | log_colorizer.py:129-131 | A non-blank string is its leading whitespace, its stripped text and its trailing whitespace. |
| LogColorizer.StripIdempotent | log_colorizer.py:141 | Stripping twice strips no more. |
| LogColorizer.Trailing | log_colorizer.py:128-131 | The trailing whitespace is what follows the right-stripped text. |
| LogColorizer.Star | log_colorizer.py:145 | `cls*` splits the text into a run in the class and a rest that does not start in it. |
| LogColorizer.Plus | log_colorizer.py:145 | `cls+` fails exactly when the text does not start in the class. |
| LogColorizer.Lit | log_colorizer.py:145 | A literal matches exactly a text starting with it. |
| LogColorizer.MatchGroup | log_colorizer.py:145 | `\[(cls+)\]` returns a non-empty group in the class, and the text is the bracketed group followed by the rest. |
| LogColorizer.MatchGroupExact | log_colorizer.py:145 | Every bracketed group is matched with itself. |
| LogColorizer.MatchPaddedLevel | log_colorizer.py:145 | `\[(\w+)\s*\]` returns the level, its padding and the rest. |
| LogColorizer.MatchPaddedLevelExact | log_colorizer.py:145 | Every padded level is matched with its own parts. |
| LogColorizer.MatchLocation | log_colorizer.py:145 | `\[([^:]+):(\d+)\]` returns the file and the line number. |
| LogColorizer.MatchLocationExact | log_colorizer.py:145 | Every location group is matched with its own parts. |
| LogColorizer.MatchMessage | log_colorizer.py:145 | `\s*(.*)` always matches and splits off the leading gap. |
| LogColorizer.MatchMessageExact | log_colorizer.py:145 | Every well-formed gap and message is matched with itself. |
| LogColorizer.MatchTail | log_colorizer.py:145 | The location, function and message groups spell out the text. |
| LogColorizer.MatchTailExact | log_colorizer.py:145 | Every well-formed tail is matched with its own groups. |
| LogColorizer.MatchLogger | log_colorizer.py:145-170 | A match of the main or spaced pattern returns well-formed groups that spell out the line. |
| LogColorizer.MatchLoggerComplete | log_colorizer.py:145-170 | Every line either pattern describes is matched, with its own groups. |
| LogColorizer.MatchSimple | log_colorizer.py:192-193 | A match returns a well-formed level and message that spell out the line. |
| LogColorizer.MatchSimpleComplete | log_colorizer.py:192-193 | Every level line is matched with its own groups. |
| LogColorizer.Classify | log_colorizer.py:145-202 | The patterns are tried in order: main, spaced, simple, then plain. Each verdict says which patterns failed. |
| LogColorizer.ClassifyLogger | log_colorizer.py:145-166 | A main-pattern line is classified with its own groups. |
| LogColorizer.ClassifySpacedLogger | log_colorizer.py:169-189 | A spaced line never matches the main pattern and is classified as spaced. |
| LogColorizer.ClassifySimple | log_colorizer.py:192-199 | A level line whose level does not start with a digit is a level line. |
| LogColorizer.NoTimestamp | log_colorizer.py:145-170 | Without a timestamp group neither logger pattern matches. |
| LogColorizer.DefaultConfig | log_colorizer.py:90-105 | The defaults cover the five levels and every component, all as colour codes. |
| LogColorizer.ChosenTheme | log_colorizer.py:112-115 | A theme applies exactly when the file names one and lists themes. |
| LogColorizer.LoadConfig | log_colorizer.py:86-124 | The defaults, with the chosen theme's entries laid over them. All components are still present. |
| LogColorizer.LoadConfigCodes | log_colorizer.py:116-119 | A theme made of colour codes keeps every colour a code. |
| LogColorizer.ColorizeSingleLine | log_colorizer.py:136-202 | A blank line is returned unchanged. A line no pattern matches is returned stripped. |
| LogColorizer.StripCodes | log_colorizer.py:160-166 | The visible text contains no escape character. |
| LogColorizer.StripCodesCode | log_colorizer.py:160-166 | A colour code is invisible. |
| LogColorizer.StripCodesText | log_colorizer.py:160-166 | Text without escapes stays visible as it is. |
| LogColorizer.StripCodesPainted | log_colorizer.py:160-163 | A painted group reads as the bracketed group. |
| LogColorizer.StripCodesMessage | log_colorizer.py:164-166 | A painted message reads as a space and the message. |
| LogColorizer.CanonicalVisible | log_colorizer.py:166 | A line already in the canonical layout reads exactly as the original. |
| LogColorizer.PaintLoggerReads | log_colorizer.py:159-189 | A painted logger line reads as its groups in the canonical layout. |
| LogColorizer.PaintSimpleReads | log_colorizer.py:194-199 | A painted level line reads as `[LEVEL] message`. |
| LogColorizer.StripWithin | log_colorizer.py:130 | Stripping adds no character. |
| LogColorizer.ColorizedLoggerReads | log_colorizer.py:136-189 | A line without escapes that a logger pattern matches reads, once colours are ignored, as its own groups. |
| LogColorizer.ColorizeLineAsWritten | log_colorizer.py:126-134 | As written: the painted stripped line followed by the line from position len(stripped) on. |
| LogColorizer.IndentedExample | log_colorizer.py:129-131 | "  abc\n" strips to "abc" with trailing whitespace "\n". |
| LogColorizer.PlainExample | log_colorizer.py:201-202 | A plain word is returned as it is. |
| LogColorizer.AsWrittenRepeatsText | log_colorizer.py:126-134 | As written, "  abc\n" becomes "abcbc\n"; corrected, it becomes "abc\n". |
| LogColorizer.ColorizeLineKeepsText | log_colorizer.py:126-134 | The corrected line is the painted stripped line followed by exactly the original trailing whitespace. |
| LogColorizer.AsWrittenAgreesWithoutIndent | log_colorizer.py:126-134 | Without leading whitespace the code as written gives the corrected result. |
| LogColorizer.EmitFirstPrefix | log_colorizer.py:50-62 | The output for a prefix of lines does not depend on later lines. |
| LogColorizer.EmitFirstAppend | log_colorizer.py:50-62 | The output for two runs of lines is the first run's output followed by the second's. |
| LogColorizer.EmitAfterLines | log_colorizer.py:44-62 | Emitting the finished lines and then those completed later is emitting all of them. |
| LogColorizer.StepKeepsText | log_colorizer.py:41-53 | Nothing is lost: the completed lines, each with its newline, and then the partial line spell out the buffer and the chunk. |
| LogColorizer.StepWithoutNewline | log_colorizer.py:41-51 | A chunk without a newline only extends the partial line. |
| LogColorizer.SegmentsAfterLines | log_colorizer.py:44-47 | The completed lines of a text stay completed when more text arrives. |
| LogColorizer.StepChunking | log_colorizer.py:32-64 | Two chunks in a row emit what their concatenation emits in one go, and leave the same partial line. |
| LogColorizer.StepJoin | log_colorizer.py:32-64 | The chunking step stated on the lines themselves. |
| LogColorizer.FeedIsOneStep | log_colorizer.py:32-64 | However the stream is cut into chunks, feeding it emits what the whole stream emits at once. |
| LogColorizer.EmitLines | log_colorizer.py:50-62 | The loop emits each completed line, with its newline, through the per-line rule. |
| LogColorizer.SplitAndEmit | log_colorizer.py:37-51 | An empty chunk emits nothing. Otherwise the output and the new partial line are the stream step, and the partial line has no newline. |
| LogColorizer.BufferedColorizer.constructor | log_colorizer.py:28-30 | The given configuration, or the loaded one, with an empty buffer. |
| LogColorizer.BufferedColorizer.ProcessChunk | log_colorizer.py:32-64 | Output and new buffer are the stream step of the per-line rule. |
| LogColorizer.BufferedColorizer.Flush | log_colorizer.py:66-80 | The partial line is emitted as a control line or colorized, and the buffer is emptied. |
| LogColorizer.BufferedColorizer.ClearBuffer | log_colorizer.py:82-84 | The buffer is empty. |

## Left out

- Hardware, the file systems, the MQTT client, ArduinoJson and the neural-network library are outside the model. Their outcomes are parameters: link outcomes, allocation results, watermarks, training results and decoded documents.
- Forward propagation, back-propagation and the CSV parsing in `trainModelFromOriginalDataset` are not modelled. The trained layers, the sample count and the elapsed time are parameters.
- The memory telemetry (`FixedMemoryUsage`, `RoundMemoryUsage`, heap info) and the logging calls carry no behaviour and are left out.
- Concurrency is not modelled: the FreeRTOS task bodies, scheduling, the one-second mutex wait and the queue timeouts. A held mutex is refused at once.
- Floating-point rounding is not modelled: the metrics are exact ratios (`real`).
- Types.MultiClassMetrics.Precision, Recall and F1Score require at least one class. With none the source divides 0 by 0, giving NaN, which reals cannot represent.
- Types.MultiClassMetrics.BalancedPrecision, BalancedRecall and BalancedF1Score require at least one class, for the same reason, since they return the mean precision, recall and F1 score.
- Unsigned widths are not modelled: the `unsigned int` loop counters and `DFLOAT` count sums of src/Types.cpp:33-50 are unbounded here. The `millis()` timestamps are unbounded too: the state machine's entry and transition times (src/StateMachine.cpp:8-24) and the training and parsing times of src/ModelManager.cpp are plain `nat`s. Only HandleStateTransition takes its elapsed time modulo 2^32.
- `initBaseModel` and `ModelManager::initializeModels` are not modelled. Neither are `saveModelToFlash` or `readTestData`, which are file I/O of the network library. `loadModelFromFlash` is reduced to whether the file opens and the layers the library reads back.
- The `setupFederatedModel` branch of `bootUp` (src/DeviceManager.cpp:94-100) is left out. `loadDeviceConfig` never sets `loadedFederateModelConfig`, so the branch cannot run.
- `onResumeReceived` and `onRawResumeReceived` are left out. They do what `onModelReceived` and `onRawModelReceived` do.
- `loadDeviceDefinitions` is reduced to its outcome: the device name, or none.
- DeviceManager.DeviceManager.OnCommandReceived requires the `command` member to be present. Without it the source passes a null pointer to `strcmp`.
- DeviceManager.DeviceManager.OnRawModelReceived requires the layers read back to be well formed when a model is loaded; the library's `load` is not modelled.
- DeviceManager.DeviceManager.OnStart and OnCommandReceived take the network the library builds, with its random initial weights, as a parameter.
- DeviceManager.DeviceManager.OnStart requires the command's configuration to be `Buildable`: at least two layers, none of width 0. The network library builds `numberOfLayers - 1` layers and training and prediction index the last one, so a smaller configuration is outside the model.
- DeviceManager.DeviceManager.OnCommandReceived requires a START command's configuration to be `Buildable`, for the same reason as OnStart.
- ModelManager.ModelManager.SetupFederatedModel requires a held configuration to have at least two layers, none of width 0, for the same reason as OnStart.
- ModelManager.ModelManager.TransformDataToModel requires a precision tag in a parsed document. Without one the source compares a null string.
- ModelUtil.TransformDataToModel requires a precision tag in a parsed document, likewise: without one include/ModelUtil.cpp:98-105 passes a null pointer to `strcmp`.
- ModelUtil.TransformDataToModel returns its arrays as values. The source returns pointers to stack arrays, which are invalid after the return.
- ModelUtil.ModelReceiver.MqttCallback does not build the network from the decoded arrays; it stores the arrays as the new model. The topic and `MQTT_MESSAGE_SIZE` are build-time macros the headers leave undefined, so both are parameters. How much of the buffer the JSON parser reads on the end marker is a parameter too (`consumed`).
- Fonte.WeightsReceiver.MqttCallback requires the path that writes the aggregated file and then reloads it to be unreachable. That path calls `loadWeightsFromFile` after `freeWeights`, which is not part of this model. A publish failure is only logged and is not modelled.
- Fonte.Split returns the number of entries written as a ghost value. Its contract states the pieces written, not the pieces dropped after `maxParts`.
- NetworkManager.NetworkManager.SendModelToNetwork requires that no send is in progress. The source spins on the guard until another task clears it. The binary model's bytes are not modelled, and neither is the memory block of the document.
- NetworkManager.NetworkManager.SetupMQTT does not model the topic subscriptions or `setupResume`. It models the Wi-Fi wait as always succeeding.
- NetworkManager.NetworkManager.ConnectToMQTT models the disconnect of a stale session only before the first attempt, because no session survives a failed attempt.
- `sendBinaryModelToNetwork`, `checkConnectionHealth` and `connectToWifi` are reduced to outcome parameters.
- TaskCoordinator.TaskCoordinator.HandleStateTransition keeps the last handled state and time as fields of each coordinator, set by its constructor. In the source they are function-local statics (src/TaskCoordinator.cpp:607-608), shared by every coordinator and never reset, so a coordinator created after another one starts from that one's last state and time, which the model does not capture.
- The task coordinator's message processing (`processFederationMessage`, `executeFederationTraining`) and the task bodies are not modelled.
- LogColorizer: `\d` and `\w` are approximated by their ASCII members. Python's Unicode digits and letters are not modelled.
- LogColorizer.LoadConfig takes the parsed settings file as a parameter. The file I/O, JSON errors and non-object values are covered by the `try`/`except` fallback to the defaults, which is `None` here. A theme whose `components` is not a dict is not modelled: log_colorizer.py:119 raises after line 117 has already updated the levels, and the `except` then returns the partly updated defaults.
- LogColorizer.BufferedColorizer.constructor takes `config or load_config()` as an `Option`. An empty dict, which Python treats as false, is not distinguished from `None`.
- LogColorizer.ColorizeSingleLine requires the colour configuration to hold every component key. Without one the source raises `KeyError`.
- LogColorizer.BufferedColorizer.ProcessChunk applies the per-line rule of `process_chunk` (control lines kept, others colorized) through `LineOutput`. The loop and the buffer logic are proved once, for any per-line rule. `LineOutput` uses the corrected `ColorizeLine` (see Findings), so an indented line is not repeated as log_colorizer.py:126-134 would repeat it.
- LogColorizer.BufferedColorizer.Flush colorizes the partial line with the corrected `ColorizeLine` (see Findings), not with the code as written.
- `main()`, the stdin/stdout loop, is left out.

## Findings

| source | as written | input that shows it | evidently intended | confidence | as-written member | corrected member |
|---|---|---|---|---|---|---|
| log_colorizer.py:126-134 | `line_ending = line[len(stripped_line):]` takes the suffix at the stripped text's length, not after the text | `"  abc\n"` with the default colours: `"abc" + "bc\n"` = `"abcbc\n"` | re-append only the trailing whitespace: `"abc\n"` | not executed | LogColorizer.ColorizeLineAsWritten, LogColorizer.AsWrittenRepeatsText | LogColorizer.ColorizeLine, LogColorizer.ColorizeLineKeepsText; used by LogColorizer.BufferedColorizer.ProcessChunk and LogColorizer.BufferedColorizer.Flush |
| src/ModelManager.cpp:115-120 | `federateModelConfig->layers` is dereferenced without a check | a raw model received after a boot that resumed training (`bootUp` never restores the configuration, src/DeviceManager.cpp:94-100), or before any `federate_start` | refuse to load, as for a missing file | not executed | ModelManager.LoadModelFromFlashAsWritten, ModelManager.LoadWithoutConfigDereferencesNull | ModelManager.LoadModelFromFlash, used by DeviceManager.DeviceManager.OnRawModelReceived |
