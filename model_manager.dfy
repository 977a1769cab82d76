// The model slots of src/ModelManager.cpp: the current and the new network,
// their metrics and their configurations, each an owning pointer that the
// manager deletes when it replaces or clears it. A pointer is an `Option`;
// the ghost log `released` records every object the manager deletes.
module ModelManager {
  import opened Wrappers
  import opened Types

  /** An object deleted by the manager. */
  datatype Released =
    | ReleasedNetwork(network: Network)
    | ReleasedMetrics(metrics: MultiClassMetrics)
    | ReleasedConfig(config: ModelConfig)

  /** The `round` field of a transfer document. */
  datatype RoundField = RoundAbsent | RoundInt(value: int) | RoundNotInt

  /** A transfer document after JSON decoding. */
  datatype ModelDocument =
    | UnparsableDocument
    | ModelDocument(precision: Option<string>, biases: seq<real>, weights: seq<real>, round: RoundField)

  function ReleasedNetworkOf(n: Option<Network>): seq<Released>
  {
    if n.Some? then [ReleasedNetwork(n.value)] else []
  }

  function ReleasedMetricsOf(m: Option<MultiClassMetrics>): seq<Released>
  {
    if m.Some? then [ReleasedMetrics(m.value)] else []
  }

  function ReleasedConfigOf(c: Option<ModelConfig>): seq<Released>
  {
    if c.Some? then [ReleasedConfig(c.value)] else []
  }

  /** The metrics the training routine hands back: one zeroed counter set
      per output class (the counters are allocated but never filled), the
      elapsed time and the configured epochs. The mean squared error field
      is left uninitialised by the source and is a parameter here. */
  function FreshTrainingMetrics(classes: nat, meanSqrdError: real, trainingTime: nat, epochs: nat): (m: MultiClassMetrics)
    ensures m.NumberOfClasses() == classes
    ensures forall i :: 0 <= i < |m.metrics| ==> m.metrics[i].TotalPredictions() == 0
  {
    MultiClassMetrics(seq(classes, _ => ClassCounts(0, 0, 0, 0)), meanSqrdError, 0, trainingTime, epochs)
  }

  lemma {:induction false} ZeroCountsTotal(cs: seq<ClassCounts>)
    requires forall i :: 0 <= i < |cs| ==> cs[i].TotalPredictions() == 0
    ensures SumTotal(cs) == 0
  {
    if cs != [] {
      ZeroCountsTotal(cs[..|cs| - 1]);
    }
  }

  /** Because the counters are never filled, the pooled accuracy reported
      after training is always 0, so a freshly trained model never compares
      better than another freshly trained one. */
  lemma TrainingMetricsReportZeroAccuracy(classes: nat, mse: real, time: nat, epochs: nat)
    ensures PooledAccuracy(FreshTrainingMetrics(classes, mse, time, epochs).metrics) == 0.0
  {
    ZeroCountsTotal(FreshTrainingMetrics(classes, mse, time, epochs).metrics);
  }

  /** What `loadModelFromFlash` comes to as written. */
  datatype FlashLoad = Loaded(network: Network) | NotLoaded | NullConfigDereference

  /** `loadModelFromFlash` as written: a file that is missing or does not
      open gives no network; otherwise a network is built from the
      federation configuration, dereferenced without a check, and its
      layers are read from the file (`read`, the library's outcome). */
  function LoadModelFromFlashAsWritten(config: Option<ModelConfig>, fileOpens: bool, read: seq<Layer>): (r: FlashLoad)
    ensures r.NullConfigDereference? <==> fileOpens && config.None?
    ensures r.NotLoaded? <==> !fileOpens
  {
    if !fileOpens then NotLoaded
    else if config.None? then NullConfigDereference
    else Loaded(Network(read, config.value.learningRateOfWeights, config.value.learningRateOfBiases))
  }

  /** `loadModelFromFlash` with the missing configuration rejected like a
      missing file. Wherever the code as written loads a network, this
      loads the same one. */
  function LoadModelFromFlash(config: Option<ModelConfig>, fileOpens: bool, read: seq<Layer>): (r: Option<Network>)
    ensures r.Some? <==> fileOpens && config.Some?
    ensures r.Some? ==> LoadModelFromFlashAsWritten(config, fileOpens, read) == Loaded(r.value)
    ensures r.Some? ==>
      && r.value.layers == read
      && r.value.learningRateOfWeights == config.value.learningRateOfWeights
      && r.value.learningRateOfBiases == config.value.learningRateOfBiases
  {
    if fileOpens && config.Some? then
      Some(Network(read, config.value.learningRateOfWeights, config.value.learningRateOfBiases))
    else None
  }

  /** Without a federation configuration, a staged file that opens makes
      the code as written dereference a null configuration; the corrected
      load gives no network, as for a missing file. */
  lemma LoadWithoutConfigDereferencesNull(read: seq<Layer>)
    ensures LoadModelFromFlashAsWritten(None, true, read) == NullConfigDereference
    ensures LoadModelFromFlash(None, true, read) == LoadModelFromFlash(None, false, read) == None
  {
  }

  class ModelManager {
    var currentModel: Option<Network>
    var newModel: Option<Network>
    var currentModelMetrics: Option<MultiClassMetrics>
    var newModelMetrics: Option<MultiClassMetrics>
    var localModelConfig: Option<ModelConfig>
    var federateModelConfig: Option<ModelConfig>
    var datasetSize: nat
    ghost var released: seq<Released>

    /** A new model is only ever built from the federation configuration,
        which therefore exists while the model does. */
    ghost predicate Valid()
      reads this
    {
      newModel.Some? ==> federateModelConfig.Some? && WellFormedLayers(newModel.value.layers)
    }

    constructor ()
      ensures Valid() && released == []
      ensures currentModel == None && newModel == None
      ensures currentModelMetrics == None && newModelMetrics == None
      ensures localModelConfig == None && federateModelConfig == None
      ensures datasetSize == 0
    {
      currentModel := None;
      newModel := None;
      currentModelMetrics := None;
      newModelMetrics := None;
      localModelConfig := None;
      federateModelConfig := None;
      datasetSize := 0;
      released := [];
    }

    /** `cleanupModels`: every slot is emptied and every object held is
        deleted, in slot order. */
    method CleanupModels()
      modifies this
      ensures Valid()
      ensures currentModel == None && newModel == None
      ensures currentModelMetrics == None && newModelMetrics == None
      ensures localModelConfig == None && federateModelConfig == None
      ensures datasetSize == old(datasetSize)
      ensures released == old(released) + ReleasedNetworkOf(old(currentModel))
        + ReleasedNetworkOf(old(newModel)) + ReleasedMetricsOf(old(currentModelMetrics))
        + ReleasedMetricsOf(old(newModelMetrics)) + ReleasedConfigOf(old(localModelConfig))
        + ReleasedConfigOf(old(federateModelConfig))
    {
      // every pointer still held is deleted, in this order
      released := released + ReleasedNetworkOf(currentModel) + ReleasedNetworkOf(newModel)
        + ReleasedMetricsOf(currentModelMetrics) + ReleasedMetricsOf(newModelMetrics)
        + ReleasedConfigOf(localModelConfig) + ReleasedConfigOf(federateModelConfig);
      if currentModel.Some? {
        currentModel := None;
      }
      if newModel.Some? {
        newModel := None;
      }
      if currentModelMetrics.Some? {
        currentModelMetrics := None;
      }
      if newModelMetrics.Some? {
        newModelMetrics := None;
      }
      if localModelConfig.Some? {
        localModelConfig := None;
      }
      if federateModelConfig.Some? {
        federateModelConfig := None;
      }
    }

    /** `setupFederatedModel`: the previous new model is always deleted; a
        fresh one is built from the federation configuration when there is
        one. `initial` is the network the library's constructor builds, its
        random initial weights included. */
    method SetupFederatedModel(initial: Network)
      requires Valid()
      requires federateModelConfig.Some? ==>
        BuiltFrom(initial, federateModelConfig.value) && |federateModelConfig.value.layers| >= 2
        && forall i :: 0 <= i < |federateModelConfig.value.layers| ==> federateModelConfig.value.layers[i] >= 1
      modifies this
      ensures Valid()
      ensures newModel == if federateModelConfig.Some? then Some(initial) else None
      ensures released == old(released) + ReleasedNetworkOf(old(newModel))
      ensures currentModel == old(currentModel) && federateModelConfig == old(federateModelConfig)
      ensures localModelConfig == old(localModelConfig) && datasetSize == old(datasetSize)
      ensures currentModelMetrics == old(currentModelMetrics) && newModelMetrics == old(newModelMetrics)
    {
      if newModel.Some? {
        released := released + [ReleasedNetwork(newModel.value)];
        newModel := None;
      }
      if federateModelConfig.Some? {
        BuiltFromWellFormed(initial, federateModelConfig.value);
        newModel := Some(initial);
      }
    }

    /** `trainModelFromOriginalDataset` applied to the new model with the
        federation configuration. When the dataset files cannot be opened
        nothing is trained and no metrics are returned; otherwise the
        network's weights are replaced by the trained ones, the first
        epoch's sample count is kept as the dataset size, and zeroed metrics
        with one counter set per output class come back. */
    method TrainNewModel(filesOpen: bool, trained: seq<Layer>, samples: nat, elapsed: nat, mse: real)
      returns (metrics: Option<MultiClassMetrics>)
      requires Valid() && newModel.Some?
      requires SameShape(newModel.value.layers, trained)
      modifies this
      ensures Valid()
      ensures !filesOpen ==> metrics == None && newModel == old(newModel) && datasetSize == 0
      ensures filesOpen ==> newModel == Some(old(newModel).value.(layers := trained)) && datasetSize == samples
      ensures filesOpen ==> metrics == Some(FreshTrainingMetrics(
        trained[|trained| - 1].outputs, mse, elapsed, federateModelConfig.value.epochs))
      ensures metrics.Some? ==> metrics.value.NumberOfClasses() >= 1
      ensures currentModel == old(currentModel) && federateModelConfig == old(federateModelConfig)
      ensures localModelConfig == old(localModelConfig) && released == old(released)
      ensures currentModelMetrics == old(currentModelMetrics) && newModelMetrics == old(newModelMetrics)
    {
      datasetSize := 0;
      if !filesOpen {
        return None;
      }
      newModel := Some(newModel.value.(layers := trained));
      datasetSize := samples;
      var classes := trained[|trained| - 1].outputs;
      metrics := Some(FreshTrainingMetrics(classes, mse, elapsed, federateModelConfig.value.epochs));
    }

    /** `transformDataToModel`: a document that does not parse, or whose
        precision tag differs from the compiled width, yields no model;
        otherwise the biases and weights are copied into new arrays, the
        round is the document's integer `round` or -1, and the decoding
        time is recorded. A document without a precision tag makes the
        source compare a null string, so it is excluded. */
    method TransformDataToModel(doc: ModelDocument, width: FloatWidth, elapsed: nat)
      returns (m: TransferredModel?)
      requires doc.ModelDocument? ==> doc.precision.Some?
      ensures m == null <==> doc.UnparsableDocument? || doc.precision.value != PrecisionTag(width)
      ensures m != null ==> fresh(m) && fresh(m.biases) && fresh(m.weights)
      ensures m != null ==> m.biases[..] == doc.biases && m.weights[..] == doc.weights
      ensures m != null ==> m.parsingTime == elapsed
      ensures m != null ==> m.round == if doc.round.RoundInt? then doc.round.value else -1
    {
      if doc.UnparsableDocument? {
        return null;
      }
      if doc.precision.value != PrecisionTag(width) {
        return null;
      }
      var bias := new real[|doc.biases|];
      var weight := new real[|doc.weights|];
      var i := 0;
      while i < |doc.biases|
        invariant 0 <= i <= |doc.biases|
        invariant bias[..i] == doc.biases[..i]
      {
        bias[i] := doc.biases[i];
        i := i + 1;
      }
      i := 0;
      while i < |doc.weights|
        invariant 0 <= i <= |doc.weights|
        invariant weight[..i] == doc.weights[..i]
        invariant bias[..] == doc.biases
      {
        weight[i] := doc.weights[i];
        i := i + 1;
      }
      var round := -1;
      if doc.round.RoundInt? {
        round := doc.round.value;
      }
      m := new TransferredModel(bias, weight, elapsed, round);
    }

    /** `predictFromCurrentModel`: no prediction without a current model;
        otherwise the library's forward pass, a parameter here. */
    method PredictFromCurrentModel(x: seq<real>, feedForward: (Network, seq<real>) -> seq<real>)
      returns (y: Option<seq<real>>)
      ensures y.None? <==> currentModel.None?
      ensures currentModel.Some? ==> y == Some(feedForward(currentModel.value, x))
    {
      if currentModel.None? {
        return None;
      }
      return Some(feedForward(currentModel.value, x));
    }

    /** `compareMetrics`: the new metrics win only when both exist and the
        new pooled accuracy is strictly higher. */
    method CompareMetrics(oldMetrics: Option<MultiClassMetrics>, newMetrics: Option<MultiClassMetrics>)
      returns (better: bool)
      ensures better <==> (oldMetrics.Some? && newMetrics.Some?
        && PooledAccuracy(newMetrics.value.metrics) > PooledAccuracy(oldMetrics.value.metrics))
    {
      if oldMetrics.None? || newMetrics.None? {
        return false;
      }
      var newAccuracy := newMetrics.value.Accuracy();
      var oldAccuracy := oldMetrics.value.Accuracy();
      return newAccuracy > oldAccuracy;
    }

    /** `setCurrentModelMetrics`: deletes the metrics held, installs the
        given ones. */
    method SetCurrentModelMetrics(metrics: Option<MultiClassMetrics>)
      modifies this`currentModelMetrics, this`released
      ensures currentModelMetrics == metrics
      ensures released == old(released) + ReleasedMetricsOf(old(currentModelMetrics))
    {
      if currentModelMetrics.Some? {
        released := released + [ReleasedMetrics(currentModelMetrics.value)];
      }
      currentModelMetrics := metrics;
    }

    /** `setNewModelMetrics`: deletes the metrics held, installs the given
        ones. */
    method SetNewModelMetrics(metrics: Option<MultiClassMetrics>)
      modifies this`newModelMetrics, this`released
      ensures newModelMetrics == metrics
      ensures released == old(released) + ReleasedMetricsOf(old(newModelMetrics))
    {
      if newModelMetrics.Some? {
        released := released + [ReleasedMetrics(newModelMetrics.value)];
      }
      newModelMetrics := metrics;
    }

    /** `setNewModel`: a plain pointer store; the previous model is not
        deleted. */
    method SetNewModel(model: Option<Network>)
      requires model.Some? ==> federateModelConfig.Some? && WellFormedLayers(model.value.layers)
      modifies this`newModel
      ensures newModel == model && Valid()
    {
      newModel := model;
    }

    /** `setFederateModelConfig`: a plain pointer store; the previous
        configuration is not deleted. */
    method SetFederateModelConfig(config: ModelConfig)
      requires Valid()
      modifies this`federateModelConfig
      ensures federateModelConfig == Some(config) && Valid()
    {
      federateModelConfig := Some(config);
    }
  }
}
