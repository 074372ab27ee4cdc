/**
 * The Fann strategy object: its network handle, dataset cache, sample
 * cursor, training-callback cursor and bias cache, and the methods that
 * change them; plus its view of the shared history table.
 */
module Strategies {
  import opened Outcomes
  import opened Config
  import opened Encoding
  import opened Windowing
  import opened Network
  import opened History
  import opened SaveRequest

  /** The function-static sample buffer of nextSample, shared by every strategy object. */
  class SampleBuffer {
    var items: seq<Candle>

    constructor ()
      ensures items == []
    {
      items := [];
    }
  }

  /** createCallback's answer for cursor position i: the i-th example of a dataset, None (false) if there is none. */
  function Entry(data: map<string, seq<Example>>, t: string, i: int): (r: Option<Example>)
    ensures r.Some? <==> t in data && 0 <= i < |data[t]|
  {
    if t in data && 0 <= i < |data[t]| then Some(data[t][i]) else None
  }

  /** The feed a freshly armed callback yields for a whole dataset: every example, in order. */
  function ArmedFeed(d: seq<Example>): (f: Feed)
    ensures |f| == |d| && forall k :: 0 <= k < |d| ==> f[k] == Some(d[k])
  {
    seq(|d|, k requires 0 <= k < |d| => Some(d[k]))
  }

  /** The network getFann hands out: the one held, else the one loadOrCreateFann acquires. */
  function HeldOrAcquired(fann: Option<Net>, fs: FileSystem, p: Params): Result<Net> {
    if fann.Some? then Success(fann.value) else Acquire(fs, p, "")
  }

  /**
   * Every example candlesToData stores fits the network: getNumInput()
   * inputs and one output, in [-1, 1].
   */
  lemma ExampleFitsNetwork(p: Params, candles: seq<Candle>, math: SeriesMath, k: nat)
    requires EncodableSource(candles, p.numSamples, WindowSize(p), p.outputScaling, math)
    requires k < NumWindows(|candles|, WindowSize(p))
    ensures var e := Dataset(candles, p.numSamples, WindowSize(p), p.useVolume != 0, p.outputScaling, math)[k];
      |e.input| == NumInput(p) && |e.output| == 1 && -1.0 <= e.output[0] <= 1.0
  {
    var w := WindowSize(p);
    DatasetAt(candles, p.numSamples, w, p.useVolume != 0, p.outputScaling, math, k);
    EncodeShape(candles[k..k + w], p.numSamples, p.useVolume != 0, p.outputScaling, math);
  }

  class Fann {
    var params: Params
    /** getCandles(): the candles, addressed by position. */
    const candles: seq<Candle>
    const series: SeriesMath
    const lib: Library
    const fs: FileSystem
    const sample: SampleBuffer
    const db: HistoryTable

    /** _fann: None when it is not a resource. */
    var fann: Option<Net>
    var data: map<string, seq<Example>>
    var sampleIterator: nat
    /** _callback_type: None for false. */
    var callbackType: Option<string>
    var callbackIterator: nat
    /** _bias: None for null. */
    var bias: Option<real>

    ghost predicate Valid()
      reads this
    {
      params.numSamples >= 2 && params.numOutput == 1
    }

    /** A strategy starts with no network, no data, both cursors at 0, and num_output set to 1. */
    constructor (p: Params, candles: seq<Candle>, series: SeriesMath, lib: Library, fs: FileSystem,
                 sample: SampleBuffer, db: HistoryTable)
      requires p.numSamples >= 2
      ensures Valid()
      ensures params == p.(numOutput := 1)
      ensures this.candles == candles && this.series == series && this.lib == lib && this.fs == fs
      ensures this.sample == sample && this.db == db
      ensures fann == None && data == map[] && sampleIterator == 0
      ensures callbackType == None && callbackIterator == 0 && bias == None
    {
      params := p.(numOutput := 1);
      this.candles := candles;
      this.series := series;
      this.lib := lib;
      this.fs := fs;
      this.sample := sample;
      this.db := db;
      fann := None;
      data := map[];
      sampleIterator := 0;
      callbackType := None;
      callbackIterator := 0;
      bias := None;
    }

    // ---------------------------------------------------------------- samples

    method ResetSample()
      modifies this`sampleIterator, sample`items
      ensures sampleIterator == 0 && sample.items == []
      ensures Cursor(sample.items, sampleIterator) == Reset
    {
      sampleIterator := 0;
      sample.items := [];
    }

    /**
     * One nextSample call, proved to do what Advance states: candles are
     * pushed until the buffer reaches the window size, the oldest is
     * dropped once it is exceeded, and null comes back when the candles
     * run out.
     */
    method NextSample() returns (r: Option<seq<Candle>>)
      modifies this`sampleIterator, sample`items
      ensures Pull(Cursor(sample.items, sampleIterator), r)
              == Advance(Cursor(old(sample.items), old(sampleIterator)), candles, WindowSize(params))
    {
      if |candles| == 0 {
        return None;
      }
      var size := WindowSize(params);
      ghost var buf0, it0 := sample.items, sampleIterator;
      while sampleIterator < |candles|
        invariant it0 <= sampleIterator
        invariant it0 <= |candles| ==> sampleIterator <= |candles| && sample.items == buf0 + candles[it0..sampleIterator]
        invariant it0 > |candles| ==> sampleIterator == it0 && sample.items == buf0
        invariant sampleIterator == it0 || |sample.items| < size
        decreases |candles| - sampleIterator
      {
        var candle := candles[sampleIterator];
        assert buf0 + candles[it0..sampleIterator + 1] == sample.items + [candle];
        sampleIterator := sampleIterator + 1;
        sample.items := sample.items + [candle];
        var current := |sample.items|;
        if current < size {
          continue;
        }
        if current == size {
          AdvanceFills(buf0, it0, sampleIterator, candles, size);
          return Some(sample.items);
        }
        AdvanceSlides(buf0, it0, candles, size);
        sample.items := sample.items[1..];
        return Some(sample.items);
      }
      if it0 <= |candles| {
        AdvanceRunsOut(buf0, it0, candles, size);
      }
      return None;
    }

    // ---------------------------------------------------------------- dataset

    /**
     * candlesToData: a cached dataset is kept unless `force`; otherwise a
     * full pass of the windower encodes every window, in order, and the
     * result is cached under `name`.
     */
    method CandlesToData(name: string, force: bool := false)
      requires EncodableSource(candles, params.numSamples, WindowSize(params), params.outputScaling, series)
      modifies this`data, this`sampleIterator, sample`items
      ensures name in old(data) && !force ==>
        data == old(data) && sampleIterator == old(sampleIterator) && sample.items == old(sample.items)
      ensures !(name in old(data) && !force) ==>
        && data == old(data)[name := Dataset(candles, params.numSamples, WindowSize(params),
                                            params.useVolume != 0, params.outputScaling, series)]
        && sampleIterator == |candles|
        && Consistent(Cursor(sample.items, sampleIterator), candles, WindowSize(params))
    {
      if name in data && !force {
        return;
      }
      var examples := EncodeAllWindows();
      data := data[name := examples];
    }

    /**
     * nextSample within a pass: after j calls, the next one returns the
     * window at j.
     */
    method NextWindow(ghost j: nat) returns (r: Option<seq<Candle>>)
      requires WindowSize(params) >= 1
      requires AfterCalls(Cursor(sample.items, sampleIterator), candles, WindowSize(params), j)
      modifies this`sampleIterator, sample`items
      ensures r == PassWindow(candles, WindowSize(params), j)
      ensures AfterCalls(Cursor(sample.items, sampleIterator), candles, WindowSize(params), j + 1)
    {
      PassStep(Cursor(sample.items, sampleIterator), candles, WindowSize(params), j);
      r := NextSample();
    }

    /**
     * The loop of candlesToData: resetSample, then one example per window
     * until nextSample gives null. The pass leaves the cursor at the end of
     * the candles with the last min(N, w) candles buffered.
     */
    method EncodeAllWindows() returns (out: seq<Example>)
      requires EncodableSource(candles, params.numSamples, WindowSize(params), params.outputScaling, series)
      modifies this`sampleIterator, sample`items
      ensures out == Dataset(candles, params.numSamples, WindowSize(params),
                             params.useVolume != 0, params.outputScaling, series)
      ensures sampleIterator == |candles|
      ensures Consistent(Cursor(sample.items, sampleIterator), candles, WindowSize(params))
    {
      ghost var w := WindowSize(params);
      ghost var all := Dataset(candles, params.numSamples, w, params.useVolume != 0, params.outputScaling, series);
      out := [];
      ResetSample();
      var s := NextWindow(0);
      ghost var j := 1;
      while s.Some? && s.value != []
        invariant 1 <= j && j - 1 <= |all|
        invariant s == PassWindow(candles, w, j - 1)
        invariant AfterCalls(Cursor(sample.items, sampleIterator), candles, w, j)
        invariant out == all[..j - 1]
        decreases |all| - (j - 1)
      {
        out := AppendExample(j - 1, s.value, out);
        s := NextWindow(j);
        j := j + 1;
      }
      PassEnd(Cursor(sample.items, sampleIterator), candles, w, j);
    }

    /**
     * The body of candlesToData's loop, before the next nextSample: the
     * window at position k is encoded and appended.
     */
    method AppendExample(ghost k: nat, window: seq<Candle>, out: seq<Example>) returns (out': seq<Example>)
      requires EncodableSource(candles, params.numSamples, WindowSize(params), params.outputScaling, series)
      requires k < NumWindows(|candles|, WindowSize(params)) && window == AllWindows(candles, WindowSize(params))[k]
      requires out == Dataset(candles, params.numSamples, WindowSize(params), params.useVolume != 0,
                              params.outputScaling, series)[..k]
      ensures out' == Dataset(candles, params.numSamples, WindowSize(params), params.useVolume != 0,
                              params.outputScaling, series)[..k + 1]
    {
      ghost var all := Dataset(candles, params.numSamples, WindowSize(params), params.useVolume != 0,
                               params.outputScaling, series);
      DatasetWindow(candles, params.numSamples, WindowSize(params), params.useVolume != 0, params.outputScaling, series, k);
      var e := EncodeWindow(window, params.numSamples, params.useVolume != 0, params.outputScaling, series);
      out' := out + [e];
      assert all[..k + 1] == all[..k] + [all[k]];
    }

    // ---------------------------------------------------------------- callback

    /**
     * createCallback: without a callback type an error; otherwise the
     * cursor advances and the entry it passed is handed out.
     */
    method CreateCallback() returns (r: Result<Option<Example>>)
      modifies this`callbackIterator
      ensures callbackType.None? ==> r == Failure(CallbackTypeNotSet) && callbackIterator == old(callbackIterator)
      ensures callbackType.Some? ==>
        && callbackIterator == old(callbackIterator) + 1
        && r == Success(Entry(data, callbackType.value, callbackIterator - 1))
    {
      if callbackType.None? {
        return Failure(CallbackTypeNotSet);
      }
      callbackIterator := callbackIterator + 1;
      r := Success(Entry(data, callbackType.value, callbackIterator - 1));
    }

    /**
     * fann_create_train_from_callback as the strategy uses it: the library
     * calls createCallback once per example. From an armed cursor over a
     * whole dataset the feed is that dataset, in order.
     */
    method CreateTrainFromCallback(count: nat) returns (feed: Feed)
      requires callbackType.Some?
      modifies this`callbackIterator
      ensures callbackIterator == old(callbackIterator) + count
      ensures |feed| == count
      ensures forall k :: 0 <= k < count ==> feed[k] == Entry(data, callbackType.value, old(callbackIterator) + k)
      ensures old(callbackIterator) == 0 && callbackType.value in data && count == |data[callbackType.value]| ==>
        feed == ArmedFeed(data[callbackType.value])
    {
      feed := [];
      var i := 0;
      while i < count
        invariant 0 <= i <= count
        invariant callbackIterator == old(callbackIterator) + i
        invariant |feed| == i
        invariant forall k :: 0 <= k < i ==> feed[k] == Entry(data, callbackType.value, old(callbackIterator) + k)
      {
        var answer := CreateCallback();
        feed := feed + [answer.value];
        i := i + 1;
      }
    }

    /**
     * The arming train and test share: the named dataset is built (or
     * reused), the callback is armed on it from the start, and the library
     * collects the whole dataset through createCallback.
     */
    method ArmFeed(name: string) returns (feed: Feed)
      requires EncodableSource(candles, params.numSamples, WindowSize(params), params.outputScaling, series)
      modifies this`data, this`sampleIterator, sample`items, this`callbackType, this`callbackIterator
      ensures name in data && callbackType == Some(name) && callbackIterator == |data[name]|
      ensures name in old(data) ==> data == old(data)
      ensures name !in old(data) ==> data == old(data)[name := Dataset(candles, params.numSamples,
                WindowSize(params), params.useVolume != 0, params.outputScaling, series)]
      ensures name in old(data) ==> sampleIterator == old(sampleIterator) && sample.items == old(sample.items)
      ensures name !in old(data) ==>
        sampleIterator == |candles| && Consistent(Cursor(sample.items, sampleIterator), candles, WindowSize(params))
      ensures feed == ArmedFeed(data[name])
    {
      CandlesToData(name);
      callbackType := Some(name);
      callbackIterator := 0;
      feed := CreateTrainFromCallback(|data[name]|);
    }

    // ---------------------------------------------------------------- handle

    /** loadFann: a readable file is loaded (a handle only if the library can parse it). */
    method LoadFann(path: string) returns (ok: bool)
      modifies this`fann
      ensures ok <==> path in fs.readable
      ensures ok ==> fann == (if path in fs.parsable then Some(Loaded(path)) else None)
      ensures !ok ==> fann == old(fann)
    {
      if path in fs.readable {
        fann := if path in fs.parsable then Some(Loaded(path)) else None;
        return true;
      }
      return false;
    }

    /** reset: the held network's weights are randomised in [-0.77, 0.77]. */
    method ResetWeights()
      requires fann.Some?
      modifies this`fann
      ensures fann == Some(old(fann).value.(weights := Uniform(-WeightBound, WeightBound)))
    {
      fann := Some(fann.value.(weights := Uniform(-WeightBound, WeightBound)));
    }

    /** createFann: a shortcut network of the configured shape, randomised; an unknown type is an error. */
    method CreateFann() returns (r: Result<bool>)
      modifies this`fann
      ensures r.Success? <==> KnownType(params)
      ensures r.Success? ==> r.value && fann == Some(Created(params).value)
      ensures r.Failure? ==> r.error == UnknownFannType && fann == old(fann)
    {
      if params.fannType == Fixed {
        var args := [NumLayers(params).value] + [NumInput(params)] + params.hiddenArray + [params.numOutput];
        fann := Some(Net(Shortcut(args), Stored, InheritedActivation, InheritedActivation,
                         InheritedAlgorithm, InheritedErrorFunction));
      } else if params.fannType == Cascade {
        var args := [NumLayers(params).value, NumInput(params), params.numOutput];
        fann := Some(Net(Shortcut(args), Stored, InheritedActivation, InheritedActivation,
                         InheritedAlgorithm, InheritedErrorFunction));
      } else {
        return Failure(UnknownFannType);
      }
      ResetWeights();
      return Success(true);
    }

    /** initFann: the settings are applied to the held network and the bias cache is cleared. */
    method InitFann() returns (r: Result<bool>)
      modifies this`fann, this`bias
      ensures old(fann).None? ==> r == Failure(NotAResource) && fann == None && bias == old(bias)
      ensures old(fann).Some? ==> r == Success(true) && fann == Some(Init(old(fann).value, params.fannType)) && bias == None
    {
      if fann.None? {
        return Failure(NotAResource);
      }
      fann := Some(Init(fann.value, params.fannType));
      bias := None;
      return Success(true);
    }

    /**
     * loadOrCreateFann: refuses to replace a held network; otherwise ends
     * with the network Acquire describes (suffixed file, plain file or a
     * new one), initialised, or fails for an unknown type.
     */
    method LoadOrCreateFann(suffix: string := "") returns (r: Result<bool>)
      modifies this`fann, this`bias
      ensures old(fann).Some? ==> r == Failure(AlreadyAcquired) && fann == old(fann) && bias == old(bias)
      ensures old(fann).None? ==>
        var a := Acquire(fs, params, suffix);
        && (r.Success? <==> a.Success?)
        && (a.Success? ==> r == Success(true) && fann == Some(a.value) && bias == None)
        && (a.Failure? ==> r == Failure(a.error) && fann == None && bias == old(bias))
    {
      if fann.Some? {
        return Failure(AlreadyAcquired);
      }
      if |suffix| > 0 {
        var _ := LoadFann(params.path + suffix);
      }
      if fann.None? {
        var _ := LoadFann(params.path);
      }
      if fann.None? {
        var created := CreateFann();
        if created.Failure? {
          return Failure(created.error);
        }
      }
      r := InitFann();
    }

    /** getFann: the held network, acquiring one first when none is held. */
    method GetFann() returns (r: Result<Net>)
      modifies this`fann, this`bias
      ensures r == HeldOrAcquired(old(fann), fs, params)
      ensures r.Failure? <==> old(fann).None? && Preferred(fs, params, "").None? && !KnownType(params)
      ensures r.Success? ==> fann == Some(r.value)
      ensures r.Failure? ==> fann == None
      ensures old(fann).Some? ==> bias == old(bias)
      ensures old(fann).None? ==> bias == (if r.Success? then None else old(bias))
    {
      if fann.None? {
        var loaded := LoadOrCreateFann();
        AcquireOrder(fs, params, "");
        if loaded.Failure? {
          return Failure(loaded.error);
        }
      }
      return Success(fann.value);
    }

    /** setFann: only a resource is accepted; it is held and initialised. */
    method SetFann(f: Option<Net>) returns (r: Result<bool>)
      modifies this`fann, this`bias
      ensures f.None? ==> r == Failure(SuppliedNotAResource) && fann == old(fann) && bias == old(bias)
      ensures f.Some? ==> r == Success(true) && fann == Some(Init(f.value, params.fannType)) && bias == None
    {
      if f.None? {
        return Failure(SuppliedNotAResource);
      }
      fann := f;
      r := InitFann();
    }

    /** destroyFann: afterwards no network is held, whether or not one was. */
    method DestroyFann()
      modifies this`fann
      ensures fann == None
    {
      if fann.Some? {
        fann := None;
      }
    }

    // ---------------------------------------------------------------- bias and run

    /**
     * getBias: 0 when compensation is off; otherwise the cached raw bias
     * times the compensation, the raw bias being computed once from an
     * all-zero input and cached.
     */
    method GetBias() returns (r: Result<real>)
      requires Valid()
      modifies this`fann, this`bias
      ensures params.biasCompensation == 0.0 ==> r == Success(0.0) && fann == old(fann) && bias == old(bias)
      ensures params.biasCompensation != 0.0 && old(bias).Some? ==>
        r.Success? && r.value == old(bias).value * params.biasCompensation && fann == old(fann) && bias == old(bias)
      ensures params.biasCompensation != 0.0 && old(bias).None? && old(fann).Some? ==>
        fann == old(fann) && bias == Some(lib.run(old(fann).value, Zeros(NumInput(params))))
      ensures r.Failure? <==>
        params.biasCompensation != 0.0 && old(bias).None? && HeldOrAcquired(old(fann), fs, params).Failure?
      ensures r.Success? && params.biasCompensation != 0.0 ==>
        bias.Some? && r.value == bias.value * params.biasCompensation
      ensures r.Success? && params.biasCompensation != 0.0 && old(bias).None? ==>
        && fann == Some(HeldOrAcquired(old(fann), fs, params).value)
        && bias == Some(lib.run(fann.value, Zeros(NumInput(params))))
      ensures r.Failure? ==> fann == None && bias == old(bias)
    {
      if params.biasCompensation == 0.0 {
        return Success(0.0);
      }
      if bias.Some? {
        return Success(bias.value * params.biasCompensation);
      }
      var held := GetFann();
      if held.Failure? {
        return Failure(held.error);
      }
      bias := Some(lib.run(held.value, Zeros(NumInput(params))));
      return Success(bias.value * params.biasCompensation);
    }

    /**
     * run: the network's first output, less the bias unless told to ignore
     * it; null when no network can be had.
     */
    method Run(input: seq<real>, ignoreBias: bool := false) returns (r: Option<real>)
      requires Valid()
      modifies this`fann, this`bias
      ensures r.None? <==> HeldOrAcquired(old(fann), fs, params).Failure?
      ensures r.Some? ==> fann == Some(HeldOrAcquired(old(fann), fs, params).value)
      ensures r.Some? && (ignoreBias || params.biasCompensation == 0.0) ==> r.value == lib.run(fann.value, input)
      ensures r.Some? && !ignoreBias && params.biasCompensation != 0.0 ==>
        bias.Some? && r.value == lib.run(fann.value, input) - bias.value * params.biasCompensation
      ensures r.None? ==> fann == None && bias == old(bias)
      ensures old(fann).Some? && old(bias).Some? ==> bias == old(bias)
      ensures r.Some? && (ignoreBias || params.biasCompensation == 0.0) ==>
        bias == (if old(fann).Some? then old(bias) else None)
      ensures r.Some? && !ignoreBias && params.biasCompensation != 0.0 && !(old(fann).Some? && old(bias).Some?) ==>
        bias == Some(lib.run(fann.value, Zeros(NumInput(params))))
    {
      var held := GetFann();
      if held.Failure? {
        return None;
      }
      var output := lib.run(held.value, input);
      if !ignoreBias {
        var b := GetBias();
        output := output - b.value;
      }
      return Some(output);
    }

    // ---------------------------------------------------------------- training

    /**
     * train: builds (or reuses) the training dataset, arms the callback,
     * feeds the whole dataset and trains the held network in place, with
     * the epoch limit (fixed) or the neuron cap (cascade); the bias cache
     * is cleared. An unknown type is an error raised before training.
     */
    method Train(maxEpochs: int := 5000) returns (r: Result<bool>)
      requires Valid()
      requires EncodableSource(candles, params.numSamples, WindowSize(params), params.outputScaling, series)
      modifies this`data, this`sampleIterator, sample`items, this`callbackType, this`callbackIterator
      modifies this`fann, this`bias
      ensures "train" in data && callbackType == Some("train") && callbackIterator == |data["train"]|
      ensures "train" in old(data) ==> data == old(data)
      ensures "train" !in old(data) ==> data == old(data)["train" := Dataset(candles, params.numSamples,
                WindowSize(params), params.useVolume != 0, params.outputScaling, series)]
      ensures "train" in old(data) ==> sampleIterator == old(sampleIterator) && sample.items == old(sample.items)
      ensures "train" !in old(data) ==>
        sampleIterator == |candles| && Consistent(Cursor(sample.items, sampleIterator), candles, WindowSize(params))
      ensures !KnownType(params) ==> r == Failure(UnknownFannType) && fann == old(fann) && bias == old(bias)
      ensures params.fannType == Fixed ==>
        var net := HeldOrAcquired(old(fann), fs, params).value;
        var trained := lib.trainOnData(net, ArmedFeed(data["train"]), maxEpochs, 0, DesiredError);
        fann == Some(trained.0) && r == Success(trained.1) && bias == None
      ensures params.fannType == Cascade ==>
        var net := HeldOrAcquired(old(fann), fs, params).value;
        var trained := lib.cascadeTrainOnData(net, ArmedFeed(data["train"]), NeuronCap(maxEpochs), 0, DesiredError);
        fann == Some(trained.0) && r == Success(trained.1) && bias == None
    {
      var feed := ArmFeed("train");
      var maxNeurons := NeuronCap(maxEpochs);
      var trained: (Net, bool);
      if params.fannType == Fixed {
        var held := GetFann();
        trained := lib.trainOnData(held.value, feed, maxEpochs, 0, DesiredError);
      } else if params.fannType == Cascade {
        var held := GetFann();
        trained := lib.cascadeTrainOnData(held.value, feed, maxNeurons, 0, DesiredError);
      } else {
        return Failure(UnknownFannType);
      }
      fann := Some(trained.0);
      bias := None;
      return Success(trained.1);
    }

    /**
     * test: builds (or reuses) the test dataset, arms the callback and
     * returns the mean squared error of the network on it.
     */
    method Test() returns (r: Result<real>)
      requires EncodableSource(candles, params.numSamples, WindowSize(params), params.outputScaling, series)
      modifies this`data, this`sampleIterator, sample`items, this`callbackType, this`callbackIterator
      modifies this`fann, this`bias
      ensures "test" in data && callbackType == Some("test") && callbackIterator == |data["test"]|
      ensures "test" in old(data) ==> data == old(data)
      ensures "test" !in old(data) ==> data == old(data)["test" := Dataset(candles, params.numSamples,
                WindowSize(params), params.useVolume != 0, params.outputScaling, series)]
      ensures "test" in old(data) ==> sampleIterator == old(sampleIterator) && sample.items == old(sample.items)
      ensures "test" !in old(data) ==>
        sampleIterator == |candles| && Consistent(Cursor(sample.items, sampleIterator), candles, WindowSize(params))
      ensures var held := HeldOrAcquired(old(fann), fs, params);
        && (held.Failure? ==> r == Failure(held.error) && fann == None && bias == old(bias))
        && (held.Success? ==>
              && r == Success(lib.testData(held.value, ArmedFeed(data["test"])))
              && fann == Some(held.value)
              && bias == (if old(fann).Some? then old(bias) else None))
    {
      var feed := ArmFeed("test");
      var held := GetFann();
      if held.Failure? {
        return Failure(held.error);
      }
      return Success(lib.testData(held.value, feed));
    }

    // ---------------------------------------------------------------- history

    /** saveHistory: one row for this strategy is appended. */
    method SaveHistory(epoch: int, name: string, value: real)
      modifies db
      ensures db.rows == old(db.rows) + [Record(params.id, epoch, name, value)]
      ensures Count(db.rows, params.id) == Count(old(db.rows), params.id) + 1
    {
      db.rows := db.rows + [Record(params.id, epoch, name, value)];
      CountAppend(old(db.rows), Record(params.id, epoch, name, value), params.id);
    }

    /** deleteHistory: every row of this strategy goes; the number deleted is the old count. */
    method DeleteHistory() returns (affected: nat)
      modifies db
      ensures db.rows == RemoveStrategy(old(db.rows), params.id)
      ensures affected == Count(old(db.rows), params.id)
      ensures Count(db.rows, params.id) == 0
    {
      var before := |db.rows|;
      db.rows := RemoveStrategy(db.rows, params.id);
      affected := before - |db.rows|;
    }

    /** getHistoryNumRecords. */
    method GetHistoryNumRecords() returns (n: nat)
      ensures n == Count(db.rows, params.id)
      ensures n > 0 <==> exists r :: r in db.rows && r.strategyId == params.id
    {
      CountPositive(db.rows, params.id);
      n := Count(db.rows, params.id);
    }

    /** getLastTrainingEpoch: the highest epoch recorded for this strategy, 0 when there is none. */
    method GetLastTrainingEpoch() returns (e: int)
      ensures Count(db.rows, params.id) == 0 ==> e == 0
      ensures Count(db.rows, params.id) > 0 ==>
        (exists r :: r in db.rows && r.strategyId == params.id && r.epoch == e)
        && forall r :: r in db.rows && r.strategyId == params.id ==> r.epoch <= e
    {
      e := LastEpoch(db.rows, params.id);
    }

    /**
     * pruneHistory: walking the strategy's distinct epochs (`epochs`, as
     * the storage lists them) with a counter that cycles 1..nth (nth
     * defaults to 2 and is at least 2), deletes the rows of each epoch met while the counter
     * equals nth. Returns the number of rows deleted.
     */
    method PruneHistory(epochs: seq<int>, nth: int := 2) returns (deleted: nat)
      requires EpochListing(epochs, db.rows, params.id)
      modifies db
      ensures var n := if nth < 2 then 2 else nth;
        db.rows == RemoveEpochs(old(db.rows), params.id, PrunedEpochs(epochs, n, |epochs|))
      ensures deleted == |old(db.rows)| - |db.rows|
    {
      var n := nth;
      if n < 2 {
        n := 2;
      }
      RemoveNothing(db.rows, params.id);
      var count := 1;
      deleted := 0;
      var i := 0;
      while i < |epochs|
        invariant 0 <= i <= |epochs|
        invariant count == CyclicCount(i, n)
        invariant db.rows == RemoveEpochs(old(db.rows), params.id, PrunedEpochs(epochs, n, i))
        invariant deleted == |old(db.rows)| - |db.rows|
      {
        if count == n {
          assert PrunedEpochs(epochs, n, i + 1) == PrunedEpochs(epochs, n, i) + {epochs[i]};
          var before := |db.rows|;
          RemoveEpochsTwice(old(db.rows), params.id, PrunedEpochs(epochs, n, i), {epochs[i]});
          db.rows := RemoveEpochs(db.rows, params.id, {epochs[i]});
          deleted := deleted + (before - |db.rows|);
        } else {
          assert PrunedEpochs(epochs, n, i + 1) == PrunedEpochs(epochs, n, i);
        }
        count := count + 1;
        if count > n {
          count := 1;
        }
        i := i + 1;
      }
    }

    // ---------------------------------------------------------------- save request

    /**
     * handleSaveRequest's own part: the parameters become SavedParams, and
     * a change of topology destroys the held network.
     */
    method HandleSaveRequest(req: Request)
      requires Valid()
      modifies this`params, this`fann
      ensures params == SavedParams(old(params), req)
      ensures TopologyChanged(old(params), req) ==> fann == None
      ensures !TopologyChanged(old(params), req) ==> fann == old(fann)
      ensures Valid()
    {
      var changed := false;
      var hidden := params.hiddenArray;
      if req.hiddenArray.Some? {
        var kept := KeepPositive(req.hiddenArray.value);
        if |kept| > 0 && hidden != kept {
          changed := true;
          hidden := kept;
        }
      }
      var numSamples := params.numSamples;
      if req.numSamples.Some? {
        numSamples := req.numSamples.value;
        if numSamples < 2 {
          numSamples := 2;
        }
        if numSamples != params.numSamples {
          changed := true;
        }
      }
      var useVolume := 0;
      if req.useVolume.Some? && req.useVolume.value != 0 {
        useVolume := 1;
      }
      if useVolume != params.useVolume {
        changed := true;
      }
      if changed {
        DestroyFann();
      }
      var targetDistance, longThreshold, shortThreshold :=
        params.targetDistance, params.longThreshold, params.shortThreshold;
      if req.targetDistance.Some? {
        targetDistance := req.targetDistance.value;
      }
      if req.longThreshold.Some? {
        longThreshold := req.longThreshold.value;
      }
      if req.shortThreshold.Some? {
        shortThreshold := req.shortThreshold.value;
      }
      params := params.(hiddenArray := hidden, numSamples := numSamples, useVolume := useVolume,
                        targetDistance := targetDistance, longThreshold := longThreshold,
                        shortThreshold := shortThreshold);
    }
  }
}
