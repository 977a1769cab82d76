// The protocol side of src/NetworkManager.cpp: the command envelopes sent to
// the federation server, the model-state labels they carry, the
// `sendingMessage` guard, the bounded MQTT reconnection schedule and the
// layout of the outbound model message. The links themselves are not
// modelled: whether Wi-Fi comes back and how each MQTT attempt ends are
// parameters, and every publication is appended to the `published` log.
module NetworkManager {
  import opened Wrappers
  import opened Types

  const MAX_MQTT_RETRIES: nat := 5
  const MQTT_RETRY_DELAY: nat := 2000
  /** The pause after dropping a stale MQTT session before reconnecting. */
  const DISCONNECT_DELAY: nat := 1000

  const MQTT_PUBLISH_TOPIC := "esp32/fl/model/push"
  const MQTT_RAW_PUBLISH_TOPIC := "esp32/fl/model/rawpush"
  const MQTT_SEND_COMMANDS_TOPIC := "esp32/fl/commands/push"

  // ---------------------------------------------------------------------
  // Labels and command envelopes

  /** The label a model state is reported under in an ALIVE command. */
  function ModelStateToString(m: ModelState): (s: string)
    ensures s == "unknown" <==> m.UnknownModelState?
  {
    match m
    case ModelIdle => "idle"
    case ReadyToTrain => "ready_to_train"
    case ModelBusy => "model_busy"
    case WaitingDownload => "waiting_download"
    case DoneTraining => "done_training"
    case UnknownModelState(_) => "unknown"
  }

  /** The server can tell every known model state from its label. */
  lemma ModelStateLabelsDistinct(a: ModelState, b: ModelState)
    requires !a.UnknownModelState? && !b.UnknownModelState?
    requires ModelStateToString(a) == ModelStateToString(b)
    ensures a == b
  {
  }

  /** A command JSON document; an absent optional field is not serialised. */
  datatype CommandEnvelope = CommandEnvelope(
    command: string,
    client: string,
    round: Option<int>,
    newModelState: Option<string>)
  {
    /** The JSON keys of the serialised document. */
    function Keys(): set<string>
    {
      {"command", "client"}
        + (if round.Some? then {"round"} else {})
        + (if newModelState.Some? then {"newModelState"} else {})
    }
  }

  /** The envelope built for a command, or None for the commands that are
      not sent (READY and LEAVE). */
  function EnvelopeFor(cmd: FederateCommand, client: string, round: int, state: ModelState): Option<CommandEnvelope>
  {
    match cmd
    case Join => Some(CommandEnvelope("join", client, None, None))
    case Resume => Some(CommandEnvelope("resume", client, Some(round), None))
    case Alive => Some(CommandEnvelope("alive", client, Some(round), Some(ModelStateToString(state))))
    case Ready => None
    case Leave => None
  }

  /** How the server reads the `command` field. */
  function CommandNamed(name: string): Option<FederateCommand>
  {
    if name == "join" then Some(Join)
    else if name == "resume" then Some(Resume)
    else if name == "alive" then Some(Alive)
    else None
  }

  /** Each sent envelope carries exactly its command's keys, names its
      command so that the server reads it back, carries the client name, the
      round when present and the state's label; READY and LEAVE are not sent. */
  lemma EnvelopeFields(cmd: FederateCommand, client: string, round: int, state: ModelState)
    ensures var e := EnvelopeFor(cmd, client, round, state);
      && (e.None? <==> cmd == Ready || cmd == Leave)
      && (e.Some? ==>
            && CommandNamed(e.value.command) == Some(cmd)
            && e.value.client == client
            && (e.value.round.Some? ==> e.value.round.value == round)
            && (e.value.newModelState.Some? ==> e.value.newModelState.value == ModelStateToString(state)))
      && (cmd == Join ==> e.Some? && e.value.Keys() == {"command", "client"})
      && (cmd == Resume ==> e.Some? && e.value.Keys() == {"command", "client", "round"})
      && (cmd == Alive ==> e.Some? && e.value.Keys() == {"command", "client", "round", "newModelState"})
  {
  }

  // ---------------------------------------------------------------------
  // The outbound model message

  /** The input width of every layer, in order. */
  function Inputs(ls: seq<Layer>): seq<nat>
  {
    if ls == [] then [] else Inputs(ls[..|ls| - 1]) + [ls[|ls| - 1].inputs]
  }

  /** The "model" array: every layer's input width, then the output width of
      the last layer. */
  function ModelShape(ls: seq<Layer>): seq<nat>
    requires |ls| >= 1
  {
    Inputs(ls) + [ls[|ls| - 1].outputs]
  }

  /** The "biases" array: one shared bias per layer. */
  function Biases(ls: seq<Layer>): seq<real>
  {
    if ls == [] then [] else Biases(ls[..|ls| - 1]) + [ls[|ls| - 1].bias]
  }

  /** The rows of a weight matrix laid end to end. */
  function Rows(rs: seq<seq<real>>): seq<real>
  {
    if rs == [] then [] else Rows(rs[..|rs| - 1]) + rs[|rs| - 1]
  }

  /** The "weights" array: layer by layer, each layer output-major. */
  function FlatWeights(ls: seq<Layer>): seq<real>
  {
    if ls == [] then [] else FlatWeights(ls[..|ls| - 1]) + Rows(ls[|ls| - 1].weights)
  }

  /** The number of weights in the layers before layer i: where layer i
      starts in the single global weight array. */
  function WeightOffset(ls: seq<Layer>, i: nat): nat
    requires i <= |ls|
  {
    if i == 0 then 0 else WeightOffset(ls, i - 1) + ls[i - 1].inputs * ls[i - 1].outputs
  }

  lemma {:induction false} InputsIndex(ls: seq<Layer>)
    ensures |Inputs(ls)| == |ls|
    ensures forall i :: 0 <= i < |ls| ==> Inputs(ls)[i] == ls[i].inputs
  {
    if ls != [] {
      InputsIndex(ls[..|ls| - 1]);
    }
  }

  lemma {:induction false} BiasesIndex(ls: seq<Layer>)
    ensures |Biases(ls)| == |ls|
    ensures forall i :: 0 <= i < |ls| ==> Biases(ls)[i] == ls[i].bias
  {
    if ls != [] {
      BiasesIndex(ls[..|ls| - 1]);
    }
  }

  /** The "model" array has one entry more than there are layers, and for a
      well-formed network entry i + 1 is the output width of layer i. */
  lemma ModelShapeWidths(ls: seq<Layer>)
    requires WellFormedLayers(ls)
    ensures |ModelShape(ls)| == |ls| + 1
    ensures forall i :: 0 <= i < |ls| ==> ModelShape(ls)[i] == ls[i].inputs
    ensures forall i :: 0 <= i < |ls| ==> ModelShape(ls)[i + 1] == ls[i].outputs
  {
    InputsIndex(ls);
    forall i | 0 <= i < |ls|
      ensures ModelShape(ls)[i + 1] == ls[i].outputs
    {
      if i < |ls| - 1 {
        assert ls[i].outputs == ls[i + 1].inputs;
      }
    }
  }

  /** For a network built from a configuration, the "model" array is the
      configuration's list of layer widths. */
  lemma ModelShapeOfConfig(n: Network, c: ModelConfig)
    requires BuiltFrom(n, c) && |c.layers| >= 2
    ensures ModelShape(n.layers) == c.layers
  {
    InputsIndex(n.layers);
  }

  lemma MulMono(a: nat, b: nat, n: nat)
    requires a <= b
    ensures a * n <= b * n
  {
  }

  lemma InRow(j: nat, k: nat, n: nat, rows: nat)
    requires j < rows && k < n
    ensures j * n + k < rows * n
  {
    assert j * n + k < (j + 1) * n;
    MulMono(j + 1, rows, n);
  }

  lemma {:induction false} RowsLength(rs: seq<seq<real>>, n: nat)
    requires forall r :: 0 <= r < |rs| ==> |rs[r]| == n
    ensures |Rows(rs)| == |rs| * n
  {
    if rs != [] {
      RowsLength(rs[..|rs| - 1], n);
      assert |rs| * n == (|rs| - 1) * n + n;
    }
  }

  lemma {:induction false} RowsIndex(rs: seq<seq<real>>, n: nat, j: nat, k: nat)
    requires forall r :: 0 <= r < |rs| ==> |rs[r]| == n
    requires j < |rs| && k < n
    ensures |Rows(rs)| == |rs| * n
    ensures j * n + k < |Rows(rs)|
    ensures Rows(rs)[j * n + k] == rs[j][k]
  {
    RowsLength(rs, n);
    InRow(j, k, n, |rs|);
    var m := |rs| - 1;
    if j < m {
      RowsIndex(rs[..m], n, j, k);
    } else {
      RowsLength(rs[..m], n);
      assert j * n == m * n;
    }
  }

  lemma {:induction false} WeightOffsetPrefix(ls: seq<Layer>, m: nat, i: nat)
    requires i <= m <= |ls|
    ensures WeightOffset(ls[..m], i) == WeightOffset(ls, i)
  {
    if i > 0 {
      WeightOffsetPrefix(ls, m, i - 1);
    }
  }

  lemma {:induction false} OffsetMono(ls: seq<Layer>, a: nat, b: nat)
    requires a <= b <= |ls|
    ensures WeightOffset(ls, a) <= WeightOffset(ls, b)
    decreases b - a
  {
    if a < b {
      OffsetMono(ls, a, b - 1);
    }
  }

  /** The "weights" array holds the sum over layers of inputs * outputs
      entries. */
  lemma {:induction false} FlatWeightsLength(ls: seq<Layer>)
    requires forall i :: 0 <= i < |ls| ==> Shaped(ls[i])
    ensures |FlatWeights(ls)| == WeightOffset(ls, |ls|)
  {
    if ls != [] {
      var m := |ls| - 1;
      FlatWeightsLength(ls[..m]);
      WeightOffsetPrefix(ls, m, m);
      RowsLength(ls[m].weights, ls[m].inputs);
      assert |ls[m].weights| * ls[m].inputs == ls[m].inputs * ls[m].outputs;
    }
  }

  /** Weight (layer i, output j, input k) sits in the "weights" array at
      the index the single-global-array build computes for it: the weights
      of the earlier layers, then j * inputs + k. */
  lemma {:induction false} FlatWeightsIndex(ls: seq<Layer>, i: nat, j: nat, k: nat)
    requires forall p :: 0 <= p < |ls| ==> Shaped(ls[p])
    requires i < |ls| && j < ls[i].outputs && k < ls[i].inputs
    ensures WeightOffset(ls, i) + j * ls[i].inputs + k < |FlatWeights(ls)|
    ensures j < |ls[i].weights| && k < |ls[i].weights[j]|
    ensures FlatWeights(ls)[WeightOffset(ls, i) + j * ls[i].inputs + k] == ls[i].weights[j][k]
  {
    assert Shaped(ls[i]);
    var m := |ls| - 1;
    var prefix := ls[..m];
    assert FlatWeights(ls) == FlatWeights(prefix) + Rows(ls[m].weights);
    if i == m {
      // the last layer's rows follow every earlier weight
      FlatWeightsLength(prefix);
      WeightOffsetPrefix(ls, m, m);
      RowsIndex(ls[m].weights, ls[m].inputs, j, k);
    } else {
      // an earlier layer sits where it sits in the prefix
      FlatWeightsIndex(prefix, i, j, k);
      WeightOffsetPrefix(ls, m, i);
    }
  }

  /** The model document published after training. The memory telemetry
      block is not modelled. */
  datatype ModelMessage = ModelMessage(
    precisionTag: string,
    client: string,
    accuracy: real,
    precision: real,
    recall: real,
    f1Score: real,
    meanSqrdError: real,
    numberOfClasses: nat,
    truePositives: seq<nat>,
    falsePositives: seq<nat>,
    trueNegatives: seq<nat>,
    falseNegatives: seq<nat>,
    model: seq<nat>,
    epochs: nat,
    datasetSize: nat,
    previousTransmit: nat,
    previousConstruct: nat,
    training: nat,
    parsing: nat,
    biases: seq<real>,
    weights: seq<real>)

  /** The message for a trained network and its metrics. */
  function ModelMessageFor(width: FloatWidth, client: string, net: Network, m: MultiClassMetrics,
                           datasetSize: nat, previousTransmit: nat, previousConstruct: nat): ModelMessage
    requires |net.layers| >= 1 && |m.metrics| >= 1
  {
    var n := |m.metrics| as real;
    ModelMessage(
      PrecisionTag(width), client,
      PooledAccuracy(m.metrics), SumPrecision(m.metrics) / n, SumRecall(m.metrics) / n, SumF1(m.metrics) / n,
      m.meanSqrdError, |m.metrics|,
      seq(|m.metrics|, i requires 0 <= i < |m.metrics| => m.metrics[i].truePositives),
      seq(|m.metrics|, i requires 0 <= i < |m.metrics| => m.metrics[i].falsePositives),
      seq(|m.metrics|, i requires 0 <= i < |m.metrics| => m.metrics[i].trueNegatives),
      seq(|m.metrics|, i requires 0 <= i < |m.metrics| => m.metrics[i].falseNegatives),
      ModelShape(net.layers), m.epochs, datasetSize, previousTransmit, previousConstruct,
      m.trainingTime, m.parsingTime,
      Biases(net.layers), FlatWeights(net.layers))
  }

  /** The "model" array, filled as the source fills it. */
  method ModelLayout(ls: seq<Layer>) returns (model: seq<nat>)
    requires |ls| >= 1
    ensures model == ModelShape(ls)
  {
    model := [];
    var n := 0;
    while n < |ls|
      invariant n <= |ls|
      invariant model == Inputs(ls[..n])
    {
      assert ls[..n + 1][..n] == ls[..n];
      model := model + [ls[n].inputs];
      n := n + 1;
    }
    assert ls[..n] == ls;
    model := model + [ls[|ls| - 1].outputs];
  }

  /** The "biases" array, one entry per layer. */
  method BiasLayout(ls: seq<Layer>) returns (biases: seq<real>)
    ensures biases == Biases(ls)
  {
    biases := [];
    var i := 0;
    while i < |ls|
      invariant i <= |ls|
      invariant biases == Biases(ls[..i])
    {
      assert ls[..i + 1][..i] == ls[..i];
      biases := biases + [ls[i].bias];
      i := i + 1;
    }
    assert ls[..i] == ls;
  }

  /** The "weights" array, in the source's triple loop: layers, then output
      neurons, then inputs (the inner two loops are AppendLayerWeights). */
  method WeightLayout(ls: seq<Layer>) returns (weights: seq<real>)
    requires forall i :: 0 <= i < |ls| ==> Shaped(ls[i])
    ensures weights == FlatWeights(ls)
  {
    weights := [];
    var i := 0;
    while i < |ls|
      invariant i <= |ls|
      invariant weights == FlatWeights(ls[..i])
    {
      weights := AppendLayerWeights(weights, ls[i]);
      assert ls[..i + 1][..i] == ls[..i];
      i := i + 1;
    }
    assert ls[..i] == ls;
  }

  /** One layer's weights appended output neuron by output neuron, each
      neuron's row input by input. */
  method AppendLayerWeights(done: seq<real>, l: Layer) returns (weights: seq<real>)
    requires Shaped(l)
    ensures weights == done + Rows(l.weights)
  {
    weights := done;
    var j := 0;
    while j < l.outputs
      invariant j <= l.outputs
      invariant weights == done + Rows(l.weights[..j])
    {
      var before := weights;
      var k := 0;
      while k < l.inputs
        invariant k <= l.inputs
        invariant weights == before + l.weights[j][..k]
      {
        weights := weights + [l.weights[j][k]];
        k := k + 1;
      }
      assert l.weights[j][..k] == l.weights[j];
      assert l.weights[..j + 1][..j] == l.weights[..j];
      j := j + 1;
    }
    assert l.weights[..j] == l.weights;
  }

  /** The four per-class counter arrays of the "metrics" object. */
  method CountLayout(ms: seq<ClassCounts>) returns (tp: seq<nat>, fp: seq<nat>, tn: seq<nat>, fn: seq<nat>)
    ensures |tp| == |fp| == |tn| == |fn| == |ms|
    ensures forall i :: 0 <= i < |ms| ==>
      tp[i] == ms[i].truePositives && fp[i] == ms[i].falsePositives
      && tn[i] == ms[i].trueNegatives && fn[i] == ms[i].falseNegatives
  {
    tp, fp, tn, fn := [], [], [], [];
    var i := 0;
    while i < |ms|
      invariant i <= |ms|
      invariant |tp| == |fp| == |tn| == |fn| == i
      invariant forall p :: 0 <= p < i ==>
        tp[p] == ms[p].truePositives && fp[p] == ms[p].falsePositives
        && tn[p] == ms[p].trueNegatives && fn[p] == ms[p].falseNegatives
    {
      tp := tp + [ms[i].truePositives];
      fp := fp + [ms[i].falsePositives];
      tn := tn + [ms[i].trueNegatives];
      fn := fn + [ms[i].falseNegatives];
      i := i + 1;
    }
  }

  /** The model document, assembled field by field as the source does. */
  method BuildModelMessage(width: FloatWidth, client: string, net: Network, metrics: MultiClassMetrics,
                           datasetSize: nat, previousTransmit: nat, previousConstruct: nat)
    returns (message: ModelMessage)
    requires WellFormedLayers(net.layers) && |metrics.metrics| >= 1
    ensures message == ModelMessageFor(width, client, net, metrics, datasetSize, previousTransmit, previousConstruct)
  {
    var accuracy := metrics.Accuracy();
    var precision := metrics.Precision();
    var recall := metrics.Recall();
    var f1 := metrics.F1Score();
    var tp, fp, tn, fn := CountLayout(metrics.metrics);
    var model := ModelLayout(net.layers);
    var biases := BiasLayout(net.layers);
    var weights := WeightLayout(net.layers);
    message := ModelMessage(
      PrecisionTag(width), client, accuracy, precision, recall, f1,
      metrics.meanSqrdError, |metrics.metrics|, tp, fp, tn, fn,
      model, metrics.epochs, datasetSize, previousTransmit, previousConstruct,
      metrics.trainingTime, metrics.parsingTime, biases, weights);
  }

  // ---------------------------------------------------------------------
  // The reconnection schedule

  /** The index of the first of the allowed attempts that ends connected,
      or MAX_MQTT_RETRIES when none does. */
  function FirstSuccess(attempts: seq<bool>, from: nat): (r: nat)
    requires from <= MAX_MQTT_RETRIES <= |attempts|
    ensures from <= r <= MAX_MQTT_RETRIES
    ensures r < MAX_MQTT_RETRIES ==> attempts[r]
    ensures forall k :: from <= k < r ==> !attempts[k]
    decreases MAX_MQTT_RETRIES - from
  {
    if from == MAX_MQTT_RETRIES then MAX_MQTT_RETRIES
    else if attempts[from] then from
    else FirstSuccess(attempts, from + 1)
  }

  /** The pauses after the first n failed attempts: 2000 ms times the
      attempt number. */
  function Backoff(n: nat): seq<nat>
  {
    if n == 0 then [] else Backoff(n - 1) + [MQTT_RETRY_DELAY * n]
  }

  function Total(ws: seq<nat>): nat
  {
    if ws == [] then 0 else Total(ws[..|ws| - 1]) + ws[|ws| - 1]
  }

  /** The backoff after n failures adds up to 1000 * n * (n + 1) ms; a full
      round of failed attempts waits 20 seconds in all. */
  lemma {:induction false} BackoffTotal(n: nat)
    ensures |Backoff(n)| == n
    ensures Total(Backoff(n)) == 1000 * n * (n + 1)
    ensures n <= MAX_MQTT_RETRIES - 1 ==> Total(Backoff(n)) <= 20000
  {
    if n > 0 {
      BackoffTotal(n - 1);
      BackoffStep(n);
      TriangleStep(n);
      if n <= MAX_MQTT_RETRIES - 1 {
        TriangleBound(n);
      }
    }
  }

  lemma BackoffStep(n: nat)
    requires n >= 1 && |Backoff(n - 1)| == n - 1
    ensures Total(Backoff(n)) == Total(Backoff(n - 1)) + MQTT_RETRY_DELAY * n
  {
    assert Backoff(n)[..n - 1] == Backoff(n - 1);
  }

  lemma TriangleStep(n: nat)
    requires n >= 1
    ensures 1000 * n * (n + 1) == 1000 * (n - 1) * n + MQTT_RETRY_DELAY * n
  {
  }

  lemma TriangleBound(n: nat)
    requires n <= MAX_MQTT_RETRIES - 1
    ensures 1000 * n * (n + 1) <= 20000
  {
    assert n == 0 || n == 1 || n == 2 || n == 3 || n == 4;
  }

  /** How a reconnection plays out: whether Wi-Fi comes back within its
      timeout, and for each MQTT attempt whether it ends connected within
      its timeout. */
  datatype LinkOutcome = LinkOutcome(wifiRestores: bool, mqttAttempts: seq<bool>)
  {
    predicate Complete()
    {
      |mqttAttempts| >= MAX_MQTT_RETRIES
    }
  }

  /** Whether a link check ends with both links up. */
  predicate Restored(wifiUp: bool, mqttUp: bool, link: LinkOutcome)
    requires link.Complete()
  {
    (wifiUp || link.wifiRestores)
    && (mqttUp || FirstSuccess(link.mqttAttempts, 0) < MAX_MQTT_RETRIES)
  }

  /** Wi-Fi after a link check: up, or brought back within its timeout. */
  predicate WifiAfter(wifiUp: bool, link: LinkOutcome)
  {
    wifiUp || link.wifiRestores
  }

  /** MQTT after a link check: up, or reconnected once Wi-Fi is up. */
  predicate MqttAfter(wifiUp: bool, mqttUp: bool, link: LinkOutcome)
    requires link.Complete()
  {
    mqttUp || (WifiAfter(wifiUp, link) && FirstSuccess(link.mqttAttempts, 0) < MAX_MQTT_RETRIES)
  }

  /** A message handed to the broker. The binary model's bytes come from the
      network library's own file format and are not modelled. */
  datatype Publication =
    | CommandPublication(topic: string, envelope: CommandEnvelope)
    | RawModelPublication(topic: string)
    | ModelPublication(topic: string, message: ModelMessage)

  function CommandPublications(e: Option<CommandEnvelope>): seq<Publication>
  {
    if e.Some? then [CommandPublication(MQTT_SEND_COMMANDS_TOPIC, e.value)] else []
  }

  class NetworkManager {
    const clientName: string
    var sendingMessage: bool
    var wifiConnected: bool
    var mqttConnected: bool
    /** Everything published, oldest first. */
    var published: seq<Publication>

    constructor (clientName: string)
      ensures this.clientName == clientName
      ensures !sendingMessage && !wifiConnected && !mqttConnected && published == []
    {
      this.clientName := clientName;
      sendingMessage := false;
      wifiConnected := false;
      mqttConnected := false;
      published := [];
    }

    /** Up to five attempts; a stale session is dropped first, and a failed
        attempt k < 5 is followed by a pause of 2000 * k ms. `waits` lists
        every pause taken. */
    method ConnectToMQTT(attempts: seq<bool>) returns (ok: bool, waits: seq<nat>)
      requires |attempts| >= MAX_MQTT_RETRIES
      modifies this`mqttConnected
      ensures mqttConnected == ok
      ensures ok <==> FirstSuccess(attempts, 0) < MAX_MQTT_RETRIES
      ensures var failures := FirstSuccess(attempts, 0);
        waits == (if old(mqttConnected) then [DISCONNECT_DELAY] else [])
                 + Backoff(if failures < MAX_MQTT_RETRIES then failures else MAX_MQTT_RETRIES - 1)
    {
      ghost var stale: seq<nat> := if mqttConnected then [DISCONNECT_DELAY] else [];
      ghost var first := FirstSuccess(attempts, 0);
      waits := [];
      var attempt := 1;
      while attempt <= MAX_MQTT_RETRIES
        invariant 1 <= attempt <= MAX_MQTT_RETRIES + 1
        invariant forall k :: 0 <= k < attempt - 1 ==> !attempts[k]
        invariant attempt == 1 ==> waits == [] && mqttConnected == old(mqttConnected)
        invariant attempt > 1 ==> !mqttConnected
        invariant attempt > 1 ==>
          waits == stale + Backoff(if attempt - 1 < MAX_MQTT_RETRIES then attempt - 1 else MAX_MQTT_RETRIES - 1)
      {
        if mqttConnected {
          mqttConnected := false;
          waits := waits + [DISCONNECT_DELAY];
        }
        assert waits == stale + Backoff(attempt - 1);
        if attempts[attempt - 1] {
          mqttConnected := true;
          assert first == attempt - 1;
          return true, waits;
        }
        if attempt < MAX_MQTT_RETRIES {
          waits := waits + [MQTT_RETRY_DELAY * attempt];
        } else {
          assert first == MAX_MQTT_RETRIES;
        }
        attempt := attempt + 1;
      }
      ok := false;
    }

    /** Restore Wi-Fi if it is down, then MQTT if it is down; MQTT is not
        tried when Wi-Fi cannot be restored. */
    method EnsureConnected(link: LinkOutcome) returns (ok: bool)
      requires link.Complete()
      modifies this`wifiConnected, this`mqttConnected
      ensures ok <==> Restored(old(wifiConnected), old(mqttConnected), link)
      ensures wifiConnected == WifiAfter(old(wifiConnected), link)
      ensures mqttConnected == MqttAfter(old(wifiConnected), old(mqttConnected), link)
      ensures ok ==> wifiConnected && mqttConnected
    {
      if !wifiConnected {
        if !link.wifiRestores {
          return false;
        }
        wifiConnected := true;
      }
      if !mqttConnected {
        var connected, _ := ConnectToMQTT(link.mqttAttempts);
        if !connected {
          return false;
        }
      }
      return true;
    }

    /** `setupMQTT`: wait for Wi-Fi without a time limit, then run the MQTT
        connection schedule. The topic subscriptions are not modelled. */
    method SetupMQTT(link: LinkOutcome) returns (ok: bool)
      requires link.Complete()
      modifies this`wifiConnected, this`mqttConnected
      ensures wifiConnected
      ensures ok == mqttConnected
      ensures ok <==> FirstSuccess(link.mqttAttempts, 0) < MAX_MQTT_RETRIES
    {
      wifiConnected := true;
      var waits;
      ok, waits := ConnectToMQTT(link.mqttAttempts);
    }

    /** Poll the broker unless a send is in progress; the inbound messages
        are dispatched by the callers' handlers. */
    method ProcessMessages(link: LinkOutcome) returns (polled: bool)
      requires link.Complete()
      modifies this`wifiConnected, this`mqttConnected
      ensures old(sendingMessage) ==> !polled && wifiConnected == old(wifiConnected) && mqttConnected == old(mqttConnected)
      ensures !old(sendingMessage) ==> (polled <==> Restored(old(wifiConnected), old(mqttConnected), link))
    {
      polled := false;
      if !sendingMessage {
        var ok := EnsureConnected(link);
        if !ok {
          return;
        }
        polled := true;
      }
    }

    /** Send a command envelope, unless the link cannot be restored or a send
        is already in progress; READY and LEAVE send nothing. */
    method SendMessageToNetwork(cmd: FederateCommand, round: int, state: ModelState, link: LinkOutcome)
      requires link.Complete()
      modifies this
      ensures sendingMessage == old(sendingMessage)
      ensures wifiConnected == WifiAfter(old(wifiConnected), link)
      ensures mqttConnected == MqttAfter(old(wifiConnected), old(mqttConnected), link)
      ensures published == old(published)
        + (if Restored(old(wifiConnected), old(mqttConnected), link) && !old(sendingMessage)
           then CommandPublications(EnvelopeFor(cmd, clientName, round, state))
           else [])
    {
      var ok := EnsureConnected(link);
      if !ok {
        return;
      }
      if sendingMessage {
        return;
      }
      sendingMessage := true;
      var envelope: CommandEnvelope;
      match cmd {
        case Join =>
          envelope := CommandEnvelope("join", clientName, None, None);
        case Resume =>
          envelope := CommandEnvelope("resume", clientName, Some(round), None);
        case Alive =>
          envelope := CommandEnvelope("alive", clientName, Some(round), Some(ModelStateToString(state)));
        case Ready =>
          sendingMessage := false;
          return;
        case Leave =>
          sendingMessage := false;
          return;
      }
      published := published + [CommandPublication(MQTT_SEND_COMMANDS_TOPIC, envelope)];
      sendingMessage := false;
    }

    /** Publish a trained network with its metrics: the binary copy first
        when it could be staged in flash, then the JSON document. The
        caller waits until no other send is in progress. */
    method SendModelToNetwork(net: Network, metrics: MultiClassMetrics, width: FloatWidth,
                              datasetSize: nat, previousTransmit: nat, previousConstruct: nat,
                              stagedInFlash: bool, link: LinkOutcome)
      requires !sendingMessage
      requires WellFormedLayers(net.layers) && |metrics.metrics| >= 1
      requires link.Complete()
      modifies this
      ensures !sendingMessage
      ensures wifiConnected == WifiAfter(old(wifiConnected), link)
      ensures mqttConnected == MqttAfter(old(wifiConnected), old(mqttConnected), link)
      ensures published == old(published)
        + (if Restored(old(wifiConnected), old(mqttConnected), link)
           then (if stagedInFlash then [RawModelPublication(MQTT_RAW_PUBLISH_TOPIC + "/" + clientName)] else [])
                + [ModelPublication(MQTT_PUBLISH_TOPIC,
                     ModelMessageFor(width, clientName, net, metrics, datasetSize, previousTransmit, previousConstruct))]
           else [])
    {
      sendingMessage := true;
      var ok := EnsureConnected(link);
      if !ok {
        sendingMessage := false;
        return;
      }
      var message := BuildModelMessage(width, clientName, net, metrics, datasetSize, previousTransmit, previousConstruct);
      if stagedInFlash {
        published := published + [RawModelPublication(MQTT_RAW_PUBLISH_TOPIC + "/" + clientName)];
      }
      published := published + [ModelPublication(MQTT_PUBLISH_TOPIC, message)];
      sendingMessage := false;
    }
  }
}
