// The shared records of include/Types.h and src/Types.cpp: the legacy
// federation and model-state codes persisted in flash, the model
// configuration, the classifier metrics and the persisted device
// configuration. Floating-point metrics are exact ratios (`real`).
module Types {
  import opened Wrappers

  /** Legacy model state. A value read back from flash is `static_cast` from
      an int, so codes outside the enumerators are representable too. */
  datatype ModelState =
    | ModelIdle
    | WaitingDownload
    | ReadyToTrain
    | DoneTraining
    | ModelBusy
    | UnknownModelState(code: int)

  /** Legacy federation state, persisted in flash. */
  datatype FederateState =
    | FederateStateNone
    | FederateStateSubscribed
    | FederateStateStarting
    | FederateStateTraining
    | FederateStateDone
    | UnknownFederateState(code: int)

  /** The floating-point width the firmware is compiled for
      (`USE_64_BIT_DOUBLE`), and the precision tag a transfer must carry. */
  datatype FloatWidth = Single | Double

  function PrecisionTag(w: FloatWidth): string
  {
    match w
    case Single => "float"
    case Double => "double"
  }

  /** Commands sent to the federation server. */
  datatype FederateCommand = Join | Ready | Leave | Resume | Alive

  predicate WellFormedModelState(m: ModelState)
  {
    m.UnknownModelState? ==> !(0 <= m.code <= 4)
  }

  predicate WellFormedFederateState(f: FederateState)
  {
    f.UnknownFederateState? ==> !(0 <= f.code <= 4)
  }

  /** The enumerator's integer value, as written to flash. */
  function ModelStateCode(m: ModelState): int
  {
    match m
    case ModelIdle => 0
    case WaitingDownload => 1
    case ReadyToTrain => 2
    case DoneTraining => 3
    case ModelBusy => 4
    case UnknownModelState(c) => c
  }

  /** `static_cast<ModelState>(i)` on a value read from flash. */
  function ModelStateOf(i: int): (m: ModelState)
    ensures WellFormedModelState(m)
    ensures ModelStateCode(m) == i
  {
    if i == 0 then ModelIdle
    else if i == 1 then WaitingDownload
    else if i == 2 then ReadyToTrain
    else if i == 3 then DoneTraining
    else if i == 4 then ModelBusy
    else UnknownModelState(i)
  }

  function FederateStateCode(f: FederateState): int
  {
    match f
    case FederateStateNone => 0
    case FederateStateSubscribed => 1
    case FederateStateStarting => 2
    case FederateStateTraining => 3
    case FederateStateDone => 4
    case UnknownFederateState(c) => c
  }

  /** `static_cast<FederateState>(i)` on a value read from flash. */
  function FederateStateOf(i: int): (f: FederateState)
    ensures WellFormedFederateState(f)
    ensures FederateStateCode(f) == i
  {
    if i == 0 then FederateStateNone
    else if i == 1 then FederateStateSubscribed
    else if i == 2 then FederateStateStarting
    else if i == 3 then FederateStateTraining
    else if i == 4 then FederateStateDone
    else UnknownFederateState(i)
  }

  /** Writing a state as its code and casting it back gives the same state. */
  lemma CodesRoundTrip(m: ModelState, f: FederateState)
    requires WellFormedModelState(m) && WellFormedFederateState(f)
    ensures ModelStateOf(ModelStateCode(m)) == m
    ensures FederateStateOf(FederateStateCode(f)) == f
  {
  }

  /** `ModelConfig`: the network shape and training hyper-parameters. The
      defaults of its C++ constructor are the defaults here. */
  datatype ModelConfig = ModelConfig(
    layers: seq<nat>,
    actvFunctions: seq<nat>,
    epochs: nat,
    randomSeed: nat,
    learningRateOfWeights: real,
    learningRateOfBiases: real)
  {
    function NumberOfLayers(): nat
    {
      |layers|
    }
  }

  function NewModelConfig(layers: seq<nat>, actvFunctions: seq<nat>, epochs: nat := 1,
                          randomSeed: nat := 10, learningRateOfWeights: real := 0.3333,
                          learningRateOfBiases: real := 0.0666): (c: ModelConfig)
    ensures c.layers == layers && c.actvFunctions == actvFunctions && c.epochs == epochs
    ensures c.randomSeed == randomSeed && c.learningRateOfWeights == learningRateOfWeights
    ensures c.learningRateOfBiases == learningRateOfBiases
  {
    ModelConfig(layers, actvFunctions, epochs, randomSeed, learningRateOfWeights, learningRateOfBiases)
  }

  // ---------------------------------------------------------------------
  // The neural network of the NeuralNetwork library, seen from this code:
  // its layers' shapes, weights and single bias, and its learning rates.
  // Forward propagation and training are not part of this model.

  /** One layer: `weights[j][k]` is the weight from input k to output j. */
  datatype Layer = Layer(inputs: nat, outputs: nat, bias: real, weights: seq<seq<real>>)

  datatype Network = Network(layers: seq<Layer>, learningRateOfWeights: real,
                             learningRateOfBiases: real)

  /** The weight matrix has `outputs` rows of `inputs` weights. */
  predicate Shaped(l: Layer)
  {
    |l.weights| == l.outputs && forall j :: 0 <= j < |l.weights| ==> |l.weights[j]| == l.inputs
  }

  /** At least one layer, every layer shaped with at least one input and
      one output, each feeding the next. */
  predicate WellFormedLayers(ls: seq<Layer>)
  {
    |ls| >= 1
    && (forall i :: 0 <= i < |ls| ==> Shaped(ls[i]) && ls[i].inputs >= 1 && ls[i].outputs >= 1)
    && (forall i :: 0 <= i < |ls| - 1 ==> ls[i].outputs == ls[i + 1].inputs)
  }

  /** The network the library's constructor builds from a configuration:
      one layer between each pair of consecutive widths, with the
      configured learning rates. The initial weights are drawn at random
      and are not constrained. */
  predicate BuiltFrom(n: Network, c: ModelConfig)
  {
    |n.layers| + 1 == |c.layers|
    && (forall i :: 0 <= i < |n.layers| ==>
          n.layers[i].inputs == c.layers[i] && n.layers[i].outputs == c.layers[i + 1]
          && Shaped(n.layers[i]))
    && n.learningRateOfWeights == c.learningRateOfWeights
    && n.learningRateOfBiases == c.learningRateOfBiases
  }

  lemma BuiltFromWellFormed(n: Network, c: ModelConfig)
    requires BuiltFrom(n, c) && |c.layers| >= 2
    requires forall i :: 0 <= i < |c.layers| ==> c.layers[i] >= 1
    ensures WellFormedLayers(n.layers)
  {
    forall i | 0 <= i < |n.layers|
      ensures n.layers[i].inputs >= 1 && n.layers[i].outputs >= 1
    {
      assert c.layers[i] >= 1 && c.layers[i + 1] >= 1;
    }
  }

  /** Same shapes layer by layer: what training leaves unchanged. */
  predicate SameShape(a: seq<Layer>, b: seq<Layer>)
  {
    |a| == |b| && forall i :: 0 <= i < |a| ==>
      a[i].inputs == b[i].inputs && a[i].outputs == b[i].outputs && Shaped(b[i]) == Shaped(a[i])
  }

  /** The `model` record of a decoded transfer: flat biases and weights,
      the decoding time and the round number. */
  class TransferredModel {
    var biases: array<real>
    var weights: array<real>
    var parsingTime: nat
    var round: int

    constructor (biases: array<real>, weights: array<real>, parsingTime: nat, round: int)
      ensures this.biases == biases && this.weights == weights
      ensures this.parsingTime == parsingTime && this.round == round
    {
      this.biases := biases;
      this.weights := weights;
      this.parsingTime := parsingTime;
      this.round := round;
    }
  }

  // ---------------------------------------------------------------------
  // Binary classifier metrics of one class.

  datatype ClassCounts = ClassCounts(truePositives: nat, trueNegatives: nat,
                                     falsePositives: nat, falseNegatives: nat)
  {
    function TotalPredictions(): nat
    {
      truePositives + trueNegatives + falsePositives + falseNegatives
    }

    /** Share of correct predictions; 0 when nothing was predicted. */
    function Accuracy(): (r: real)
      ensures 0.0 <= r <= 1.0
      ensures r == 1.0 <==> TotalPredictions() > 0 && falsePositives == 0 && falseNegatives == 0
    {
      var total := TotalPredictions();
      if total == 0 then 0.0
      else
        RatioFacts(truePositives + trueNegatives, total);
        (truePositives + trueNegatives) as real / total as real
    }

    /** TP / (TP + FP); 0 when the class was never predicted. */
    function Precision(): (r: real)
      ensures 0.0 <= r <= 1.0
      ensures r == 0.0 <==> truePositives == 0
      ensures r == 1.0 <==> truePositives > 0 && falsePositives == 0
    {
      if truePositives + falsePositives == 0 then 0.0
      else
        RatioFacts(truePositives, truePositives + falsePositives);
        truePositives as real / (truePositives + falsePositives) as real
    }

    /** TP / (TP + FN); 0 when the class never occurred. */
    function Recall(): (r: real)
      ensures 0.0 <= r <= 1.0
      ensures r == 0.0 <==> truePositives == 0
      ensures r == 1.0 <==> truePositives > 0 && falseNegatives == 0
    {
      if truePositives + falseNegatives == 0 then 0.0
      else
        RatioFacts(truePositives, truePositives + falseNegatives);
        truePositives as real / (truePositives + falseNegatives) as real
    }

    /** Harmonic mean of precision and recall; 0 when both are 0. */
    function F1Score(): real
    {
      HarmonicMean(Precision(), Recall())
    }
  }

  /** The F1 score lies between precision and recall, so within [0, 1], and
      is 0 exactly when there is no true positive. */
  lemma F1Bounds(c: ClassCounts)
    ensures var p, r, f := c.Precision(), c.Recall(), c.F1Score();
      (if p <= r then p else r) <= f <= (if p <= r then r else p)
    ensures 0.0 <= c.F1Score() <= 1.0
    ensures c.F1Score() == 0.0 <==> c.truePositives == 0
  {
    HarmonicMeanBetween(c.Precision(), c.Recall());
  }

  /** 2pr / (p + r), and 0 when both are 0. */
  function HarmonicMean(p: real, r: real): real
  {
    if p + r == 0.0 then 0.0 else 2.0 * (p * r) / (p + r)
  }

  /** The harmonic mean of two non-negative numbers lies between them. */
  lemma HarmonicMeanBetween(p: real, r: real)
    requires 0.0 <= p && 0.0 <= r
    ensures (if p <= r then p else r) <= HarmonicMean(p, r) <= (if p <= r then r else p)
  {
    if p + r == 0.0 {
      return;
    }
    if p <= r {
      Between(p, r);
    } else {
      Between(r, p);
      assert HarmonicMean(p, r) == 2.0 * (r * p) / (r + p);
    }
  }

  /** For 0 <= lo <= hi, lo <= 2 lo hi / (lo + hi) <= hi when lo + hi > 0. */
  lemma Between(lo: real, hi: real)
    requires 0.0 <= lo <= hi && lo + hi > 0.0
    ensures lo <= 2.0 * (lo * hi) / (lo + hi) <= hi
  {
    ScaleLe(lo, hi, lo);
    ScaleLe(lo, hi, hi);
    assert lo * (lo + hi) == lo * lo + lo * hi;
    assert hi * (lo + hi) == hi * lo + hi * hi;
    QuotientBetween(2.0 * (lo * hi), lo + hi, lo, hi);
  }

  /** Multiplying both sides by a non-negative number keeps an inequality. */
  lemma ScaleLe(a: real, b: real, c: real)
    requires a <= b && 0.0 <= c
    ensures a * c <= b * c && c * a <= c * b
  {
  }

  /** A count over a positive total it does not exceed is a share in [0, 1],
      0 exactly for a zero count and 1 exactly for the whole total. */
  lemma RatioFacts(a: nat, b: nat)
    requires 0 < b && a <= b
    ensures 0.0 <= a as real / b as real <= 1.0
    ensures a as real / b as real == 0.0 <==> a == 0
    ensures a as real / b as real == 1.0 <==> a == b
  {
    var q := a as real / b as real;
    assert q * b as real == a as real;
    QuotientBetween(a as real, b as real, 0.0, 1.0);
  }

  /** Dividing by a positive number keeps bounds that hold after multiplying. */
  lemma QuotientBetween(a: real, c: real, lo: real, hi: real)
    requires c > 0.0 && lo * c <= a <= hi * c
    ensures lo <= a / c <= hi
  {
  }

  // ---------------------------------------------------------------------
  // Multi-class metrics: one ClassCounts per class.

  function SumTotal(cs: seq<ClassCounts>): nat
  {
    if cs == [] then 0 else SumTotal(cs[..|cs| - 1]) + cs[|cs| - 1].TotalPredictions()
  }

  function SumCorrect(cs: seq<ClassCounts>): nat
  {
    if cs == [] then 0
    else SumCorrect(cs[..|cs| - 1]) + cs[|cs| - 1].truePositives + cs[|cs| - 1].trueNegatives
  }

  function SumPrecision(cs: seq<ClassCounts>): real
  {
    if cs == [] then 0.0 else SumPrecision(cs[..|cs| - 1]) + cs[|cs| - 1].Precision()
  }

  function SumRecall(cs: seq<ClassCounts>): real
  {
    if cs == [] then 0.0 else SumRecall(cs[..|cs| - 1]) + cs[|cs| - 1].Recall()
  }

  function SumF1(cs: seq<ClassCounts>): real
  {
    if cs == [] then 0.0 else SumF1(cs[..|cs| - 1]) + cs[|cs| - 1].F1Score()
  }

  /** Pooled accuracy over all classes; 0 when nothing was predicted. */
  function PooledAccuracy(cs: seq<ClassCounts>): real
  {
    if SumTotal(cs) == 0 then 0.0 else SumCorrect(cs) as real / SumTotal(cs) as real
  }

  lemma {:induction false} CorrectAtMostTotal(cs: seq<ClassCounts>)
    ensures SumCorrect(cs) <= SumTotal(cs)
  {
    if cs != [] {
      CorrectAtMostTotal(cs[..|cs| - 1]);
    }
  }

  /** Pooled accuracy is a proportion. */
  lemma PooledAccuracyBounds(cs: seq<ClassCounts>)
    ensures 0.0 <= PooledAccuracy(cs) <= 1.0
  {
    CorrectAtMostTotal(cs);
    if SumTotal(cs) != 0 {
      RatioFacts(SumCorrect(cs), SumTotal(cs));
    }
  }

  lemma {:induction false} SumPrecisionBounded(cs: seq<ClassCounts>)
    ensures 0.0 <= SumPrecision(cs) <= |cs| as real
  {
    if cs != [] {
      SumPrecisionBounded(cs[..|cs| - 1]);
    }
  }

  lemma {:induction false} SumRecallBounded(cs: seq<ClassCounts>)
    ensures 0.0 <= SumRecall(cs) <= |cs| as real
  {
    if cs != [] {
      SumRecallBounded(cs[..|cs| - 1]);
    }
  }

  lemma {:induction false} SumF1Bounded(cs: seq<ClassCounts>)
    ensures 0.0 <= SumF1(cs) <= |cs| as real
  {
    if cs != [] {
      SumF1Bounded(cs[..|cs| - 1]);
      F1Bounds(cs[|cs| - 1]);
    }
  }

  /** A mean of per-class values in [0, 1] is in [0, 1]. */
  lemma MeanBounded(sum: real, n: nat)
    requires n > 0 && 0.0 <= sum <= n as real
    ensures 0.0 <= sum / n as real <= 1.0
  {
    QuotientBetween(sum, n as real, 0.0, 1.0);
  }

  datatype MultiClassMetrics = MultiClassMetrics(
    metrics: seq<ClassCounts>,
    meanSqrdError: real,
    parsingTime: nat,
    trainingTime: nat,
    epochs: nat)
  {
    function NumberOfClasses(): nat
    {
      |metrics|
    }

    /** Predictions over all classes. */
    method TotalPredictions() returns (total: nat)
      ensures total == SumTotal(metrics)
    {
      total := 0;
      var i := 0;
      while i < |metrics|
        invariant 0 <= i <= |metrics|
        invariant total == SumTotal(metrics[..i])
      {
        assert metrics[..i + 1][..i] == metrics[..i];
        total := total + metrics[i].TotalPredictions();
        i := i + 1;
      }
      assert metrics[..i] == metrics;
    }

    /** Pooled accuracy, a proportion. */
    method Accuracy() returns (r: real)
      ensures r == PooledAccuracy(metrics)
      ensures 0.0 <= r <= 1.0
    {
      var totalCorrect: nat := 0;
      var total: nat := 0;
      var i := 0;
      while i < |metrics|
        invariant 0 <= i <= |metrics|
        invariant totalCorrect == SumCorrect(metrics[..i])
        invariant total == SumTotal(metrics[..i])
      {
        assert metrics[..i + 1][..i] == metrics[..i];
        totalCorrect := totalCorrect + metrics[i].truePositives + metrics[i].trueNegatives;
        total := total + metrics[i].TotalPredictions();
        i := i + 1;
      }
      assert metrics[..i] == metrics;
      PooledAccuracyBounds(metrics);
      if total == 0 {
        return 0.0;
      }
      r := totalCorrect as real / total as real;
    }

    /** Mean of the per-class precisions, within [0, 1]. */
    method Precision() returns (r: real)
      requires |metrics| > 0
      ensures r == SumPrecision(metrics) / |metrics| as real
      ensures 0.0 <= r <= 1.0
    {
      var totalPrecision := 0.0;
      var i := 0;
      while i < |metrics|
        invariant 0 <= i <= |metrics|
        invariant totalPrecision == SumPrecision(metrics[..i])
      {
        assert metrics[..i + 1][..i] == metrics[..i];
        totalPrecision := totalPrecision + metrics[i].Precision();
        i := i + 1;
      }
      assert metrics[..i] == metrics;
      SumPrecisionBounded(metrics);
      MeanBounded(totalPrecision, |metrics|);
      r := totalPrecision / |metrics| as real;
    }

    /** Mean of the per-class recalls, within [0, 1]. */
    method Recall() returns (r: real)
      requires |metrics| > 0
      ensures r == SumRecall(metrics) / |metrics| as real
      ensures 0.0 <= r <= 1.0
    {
      var totalRecall := 0.0;
      var i := 0;
      while i < |metrics|
        invariant 0 <= i <= |metrics|
        invariant totalRecall == SumRecall(metrics[..i])
      {
        assert metrics[..i + 1][..i] == metrics[..i];
        totalRecall := totalRecall + metrics[i].Recall();
        i := i + 1;
      }
      assert metrics[..i] == metrics;
      SumRecallBounded(metrics);
      MeanBounded(totalRecall, |metrics|);
      r := totalRecall / |metrics| as real;
    }

    /** Mean of the per-class F1 scores, within [0, 1]. */
    method F1Score() returns (r: real)
      requires |metrics| > 0
      ensures r == SumF1(metrics) / |metrics| as real
      ensures 0.0 <= r <= 1.0
    {
      var totalF1 := 0.0;
      var i := 0;
      while i < |metrics|
        invariant 0 <= i <= |metrics|
        invariant totalF1 == SumF1(metrics[..i])
      {
        assert metrics[..i + 1][..i] == metrics[..i];
        totalF1 := totalF1 + metrics[i].F1Score();
        i := i + 1;
      }
      assert metrics[..i] == metrics;
      SumF1Bounded(metrics);
      MeanBounded(totalF1, |metrics|);
      r := totalF1 / |metrics| as real;
    }

    /** The "balanced" variants return the plain ones. */
    method BalancedAccuracy() returns (r: real)
      ensures r == PooledAccuracy(metrics)
    {
      r := Accuracy();
    }

    method BalancedPrecision() returns (r: real)
      requires |metrics| > 0
      ensures r == SumPrecision(metrics) / |metrics| as real
    {
      r := Precision();
    }

    method BalancedRecall() returns (r: real)
      requires |metrics| > 0
      ensures r == SumRecall(metrics) / |metrics| as real
    {
      r := Recall();
    }

    method BalancedF1Score() returns (r: real)
      requires |metrics| > 0
      ensures r == SumF1(metrics) / |metrics| as real
    {
      r := F1Score();
    }
  }

  // ---------------------------------------------------------------------
  // The persisted device configuration.

  class DeviceConfig {
    var currentRound: int
    var currentFederateState: FederateState
    var newModelState: ModelState
    var currentModelMetrics: Option<MultiClassMetrics>
    var loadedFederateModelConfig: Option<ModelConfig>

    /** The field initialisers of the C++ struct. */
    constructor ()
      ensures currentRound == -1 && currentFederateState == FederateStateNone
      ensures newModelState == ModelIdle
      ensures currentModelMetrics == None && loadedFederateModelConfig == None
    {
      currentRound := -1;
      currentFederateState := FederateStateNone;
      newModelState := ModelIdle;
      currentModelMetrics := None;
      loadedFederateModelConfig := None;
    }

    /** `reset`: back to the initial values, releasing the owned metrics and
        model configuration. */
    method Reset()
      modifies this
      ensures currentRound == -1 && currentFederateState == FederateStateNone
      ensures newModelState == ModelIdle
      ensures currentModelMetrics == None && loadedFederateModelConfig == None
    {
      currentRound := -1;
      currentFederateState := FederateStateNone;
      newModelState := ModelIdle;
      if currentModelMetrics.Some? {
        currentModelMetrics := None;
      }
      if loadedFederateModelConfig.Some? {
        loadedFederateModelConfig := None;
      }
    }
  }
}
