/**
 * The strategy's parameters and the topology arithmetic derived from them:
 * the input width, the layer count, the argument list handed to the
 * library's shortcut-network constructor, and the neuron cap used by
 * cascade training.
 */
module Config {
  import opened Outcomes

  /**
   * The parameters the strategy reads with getParam. Integers stand for the
   * intval'd values; `useVolume` and `biasCompensation` are tested for
   * truthiness (non-zero), as PHP does.
   */
  datatype Params = Params(
    id: int,
    path: string,            // the network file, as path() returns it
    fannType: string,        // "fixed", "cascade", or anything else (an error)
    hiddenArray: seq<int>,
    numOutput: int,
    numSamples: int,
    targetDistance: int,
    useVolume: int,
    outputScaling: real,
    biasCompensation: real,
    longThreshold: int,
    shortThreshold: int)

  const Fixed := "fixed"
  const Cascade := "cascade"

  predicate KnownType(p: Params) {
    p.fannType == Fixed || p.fannType == Cascade
  }

  /** Values contributed by each full input candle: O, H, L, C and, with volume, V. */
  function Fields(p: Params): (f: int)
    ensures f == 4 || f == 5
    ensures f == 5 <==> p.useVolume != 0
  {
    if p.useVolume != 0 then 5 else 4
  }

  /**
   * getNumInput: the last input candle contributes only its open price; the
   * price block has 4(n-1)+1 values, and each full candle adds its volume
   * when volume is used.
   */
  function NumInput(p: Params): (r: int)
    ensures r == 4 * (p.numSamples - 1) + 1 + (if p.useVolume != 0 then p.numSamples - 1 else 0)
    ensures p.numSamples >= 1 ==> r >= 1
  {
    (p.numSamples - 1) * Fields(p) + 1
  }

  /** The length of a sample window: the input candles plus the look-ahead. */
  function WindowSize(p: Params): int {
    p.numSamples + p.targetDistance
  }

  /** getNumLayers: an unknown network type is an error. */
  function NumLayers(p: Params): (r: Result<int>)
    ensures r.Failure? <==> !KnownType(p)
    ensures r.Failure? ==> r.error == UnknownFannType
  {
    if p.fannType == Fixed then Success(|p.hiddenArray| + 2)
    else if p.fannType == Cascade then Success(2)
    else Failure(UnknownFannType)
  }

  /**
   * The arguments createFann passes to fann_create_shortcut: the layer
   * count followed by one size per layer.
   */
  function CreateArgs(p: Params): (r: Result<seq<int>>)
    ensures r.Success? <==> KnownType(p)
  {
    if p.fannType == Fixed then
      Success([|p.hiddenArray| + 2] + [NumInput(p)] + p.hiddenArray + [p.numOutput])
    else if p.fannType == Cascade then
      Success([2, NumInput(p), p.numOutput])
    else
      Failure(UnknownFannType)
  }

  /**
   * The layer count createFann announces is the one getNumLayers reports,
   * and the size list that follows it has exactly that many entries:
   * the input width, the hidden sizes (fixed only) and the output width.
   * Both fail together on an unknown type.
   */
  lemma CreateArgsMatchLayers(p: Params)
    ensures CreateArgs(p).Failure? <==> NumLayers(p).Failure?
    ensures CreateArgs(p).Failure? ==> CreateArgs(p).error == UnknownFannType
    ensures CreateArgs(p).Success? ==>
      var a := CreateArgs(p).value;
      && |a| >= 3
      && a[0] == NumLayers(p).value
      && |a| == a[0] + 1
      && a[1] == NumInput(p)
      && a[|a| - 1] == p.numOutput
      && (p.fannType == Fixed ==> a[2..|a| - 1] == p.hiddenArray)
      && (p.fannType == Cascade ==> |a| == 3)
  {
    if p.fannType == Fixed {
      var a := CreateArgs(p).value;
      assert a[2..|a| - 1] == p.hiddenArray;
    }
  }

  /** train: the neuron cap for cascade training, max_epochs / 10 clamped to [1, 1000]. */
  function MaxNeurons(maxEpochs: int): (r: real)
    ensures 1.0 <= r <= 1000.0
    ensures 10 <= maxEpochs <= 10000 ==> r == maxEpochs as real / 10.0
    ensures maxEpochs < 10 ==> r == 1.0
    ensures maxEpochs > 10000 ==> r == 1000.0
  {
    var m := maxEpochs as real / 10.0;
    if m < 1.0 then 1.0 else if m > 1000.0 then 1000.0 else m
  }

  /**
   * The neuron cap as fann_cascadetrain_on_data receives it: its parameter
   * is an integer, so the (positive) PHP float is truncated; the cap is
   * then max_epochs / 10 in integer division, clamped to [1, 1000].
   */
  function NeuronCap(maxEpochs: int): (n: int)
    ensures 1 <= n <= 1000
    ensures n as real <= MaxNeurons(maxEpochs) < n as real + 1.0
    ensures 10 <= maxEpochs <= 10009 ==> n == maxEpochs / 10
  {
    var m := MaxNeurons(maxEpochs);
    assert 10 <= maxEpochs <= 10009 ==> (maxEpochs / 10) as real <= m < (maxEpochs / 10) as real + 1.0;
    m.Floor
  }

  /** More epochs never lower the neuron cap. */
  lemma MaxNeuronsMonotonic(a: int, b: int)
    requires a <= b
    ensures MaxNeurons(a) <= MaxNeurons(b)
  {
    assert a as real / 10.0 <= b as real / 10.0;
  }
}
