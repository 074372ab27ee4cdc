/**
 * The network handle as a value, the FANN library calls the strategy
 * makes (as functions supplied from outside), and what acquiring a handle
 * yields: the suffixed file, the plain file, or a freshly created network,
 * always initialised.
 */
module Network {
  import opened Outcomes
  import opened Config
  import opened Encoding

  /** Settings a handle keeps from its file or from the library defaults are `Inherited…`. */
  datatype Activation = InheritedActivation | SigmoidSymmetric | GaussianSymmetric
  datatype Algorithm = InheritedAlgorithm | Rprop
  datatype ErrorFunction = InheritedErrorFunction | Tanh

  /** Where a network came from: fann_create_from_file or fann_create_shortcut with these arguments. */
  datatype Origin = FromFile(path: string) | Shortcut(args: seq<int>)

  /** The weights as stored in a file, or drawn uniformly from [lo, hi] by fann_randomize_weights. */
  datatype Weights = Stored | Uniform(lo: real, hi: real)

  datatype Net = Net(
    origin: Origin,
    weights: Weights,
    hidden: Activation,
    output: Activation,
    algorithm: Algorithm,
    errorFunction: ErrorFunction)

  /** What fann_create_train_from_callback collected: one callback answer per example (None for false). */
  type Feed = seq<Option<Example>>

  /**
   * The library calls whose behaviour is not modelled: fann_run (its first
   * output), fann_train_on_data, fann_cascadetrain_on_data (each giving the
   * trained network and the call's result) and fann_test_data (the MSE).
   */
  datatype Library = Library(
    run: (Net, seq<real>) -> real,
    trainOnData: (Net, Feed, int, int, real) -> (Net, bool),
    cascadeTrainOnData: (Net, Feed, int, int, real) -> (Net, bool),
    testData: (Net, Feed) -> real)

  /** The readable regular files, and those fann_create_from_file can parse. */
  datatype FileSystem = FileSystem(readable: set<string>, parsable: set<string>)

  /** reset(): weights drawn from [-0.77, 0.77]. */
  const WeightBound: real := 0.77

  /** train: the desired error for both training kinds. */
  const DesiredError: real := 0.0000001

  predicate Loadable(fs: FileSystem, path: string) {
    path in fs.readable && path in fs.parsable
  }

  /** A network as fann_create_from_file returns it. */
  function Loaded(path: string): Net {
    Net(FromFile(path), Stored, InheritedActivation, InheritedActivation, InheritedAlgorithm, InheritedErrorFunction)
  }

  /** createFann followed by its reset(): a shortcut network with randomised weights. */
  function Created(p: Params): (r: Result<Net>)
    ensures r.Failure? <==> !KnownType(p)
    ensures r.Failure? ==> r.error == UnknownFannType
    ensures r.Success? ==> r.value.origin == Shortcut(CreateArgs(p).value)
    ensures r.Success? ==> r.value.weights == Uniform(-WeightBound, WeightBound)
  {
    match CreateArgs(p)
    case Failure(e) => Failure(e)
    case Success(args) =>
      Success(Net(Shortcut(args), Uniform(-WeightBound, WeightBound),
                  InheritedActivation, InheritedActivation, InheritedAlgorithm, InheritedErrorFunction))
  }

  /** The settings initFann applies. */
  predicate Initialized(n: Net, fannType: string) {
    && n.hidden == SigmoidSymmetric
    && n.output == GaussianSymmetric
    && n.errorFunction == Tanh
    && (fannType == Fixed ==> n.algorithm == Rprop)
  }

  /**
   * initFann on a handle: the activations, the error function and (fixed
   * networks only) RPROP; the network itself and its weights are kept.
   */
  function Init(n: Net, fannType: string): (m: Net)
    ensures Initialized(m, fannType)
    ensures m.origin == n.origin && m.weights == n.weights
    ensures fannType != Fixed ==> m.algorithm == n.algorithm
  {
    n.(hidden := SigmoidSymmetric, output := GaussianSymmetric,
       algorithm := if fannType == Fixed then Rprop else n.algorithm,
       errorFunction := Tanh)
  }

  /** The file loadOrCreateFann loads, if any: the suffixed path first, then the plain one. */
  function Preferred(fs: FileSystem, p: Params, suffix: string): Option<string> {
    if |suffix| > 0 && Loadable(fs, p.path + suffix) then Some(p.path + suffix)
    else if Loadable(fs, p.path) then Some(p.path)
    else None
  }

  /** The handle loadOrCreateFann ends holding, when it starts without one. */
  function Acquire(fs: FileSystem, p: Params, suffix: string): (r: Result<Net>)
    ensures r.Success? ==> Initialized(r.value, p.fannType)
  {
    match Preferred(fs, p, suffix)
    case Some(file) => Success(Init(Loaded(file), p.fannType))
    case None =>
      match Created(p)
      case Failure(e) => Failure(e)
      case Success(n) => Success(Init(n, p.fannType))
  }

  /**
   * Acquiring fails only for an unknown network type with no loadable
   * file; a loadable suffixed file wins over the plain file, which wins
   * over creating a new network with the configured layer sizes.
   */
  lemma AcquireOrder(fs: FileSystem, p: Params, suffix: string)
    ensures var r := Acquire(fs, p, suffix);
      && (r.Failure? <==> Preferred(fs, p, suffix).None? && !KnownType(p))
      && (|suffix| > 0 && Loadable(fs, p.path + suffix) ==> r == Success(Init(Loaded(p.path + suffix), p.fannType)))
      && (!(|suffix| > 0 && Loadable(fs, p.path + suffix)) && Loadable(fs, p.path) ==>
            r == Success(Init(Loaded(p.path), p.fannType)))
      && (Preferred(fs, p, suffix).None? && KnownType(p) ==>
            r.Success? && r.value.origin == Shortcut(CreateArgs(p).value)
            && r.value.weights == Uniform(-WeightBound, WeightBound))
  {
  }

  /** The all-zero input getBias runs through the network. */
  function Zeros(n: nat): (z: seq<real>)
    ensures |z| == n && forall i :: 0 <= i < n ==> z[i] == 0.0
  {
    seq(n, _ => 0.0)
  }
}
