/**
 * The parameter normalisation of handleSaveRequest: which request fields
 * are taken, how they are coerced, and when the change counts as a change
 * of topology (one that invalidates the stored network).
 */
module SaveRequest {
  import opened Outcomes
  import opened Config

  /**
   * The request fields the strategy reads, already passed through intval;
   * None for a field the request does not set. `hiddenArray` holds the
   * comma-separated list's entries.
   */
  datatype Request = Request(
    hiddenArray: Option<seq<int>>,
    numSamples: Option<int>,
    useVolume: Option<int>,
    targetDistance: Option<int>,
    longThreshold: Option<int>,
    shortThreshold: Option<int>)

  /**
   * The positive entries of a hidden-layer list, in their order and with
   * their repeats: a list of positive sizes is kept as it is, and a single
   * entry survives exactly when it is positive.
   */
  function PositiveLayers(xs: seq<int>): (ys: seq<int>)
    ensures |ys| <= |xs|
    ensures forall y :: y in ys ==> y > 0
    ensures forall x :: x in xs ==> (x in ys <==> x > 0)
    ensures (forall i :: 0 <= i < |xs| ==> xs[i] > 0) ==> ys == xs
    ensures |xs| == 1 ==> ys == (if xs[0] > 0 then xs else [])
  {
    if xs == [] then []
    else
      var init := PositiveLayers(xs[..|xs| - 1]);
      var last := xs[|xs| - 1];
      assert forall x :: x in xs <==> x in xs[..|xs| - 1] || x == last;
      assert xs == xs[..|xs| - 1] + [last];
      assert forall i :: 0 <= i < |xs| - 1 ==> xs[..|xs| - 1][i] == xs[i];
      if last > 0 then init + [last] else init
  }

  /** Filtering a concatenation filters each part, in order. */
  lemma {:induction false} PositiveLayersAppend(a: seq<int>, b: seq<int>)
    ensures PositiveLayers(a + b) == PositiveLayers(a) + PositiveLayers(b)
    decreases |b|
  {
    if b == [] {
      assert a + b == a;
    } else {
      var b' := b[..|b| - 1];
      assert (a + b)[..|a + b| - 1] == a + b';
      assert (a + b)[|a + b| - 1] == b[|b| - 1];
      PositiveLayersAppend(a, b');
    }
  }

  /** The filtering loop over the exploded list. */
  method KeepPositive(xs: seq<int>) returns (ys: seq<int>)
    ensures ys == PositiveLayers(xs)
  {
    ys := [];
    var i := 0;
    while i < |xs|
      invariant 0 <= i <= |xs|
      invariant ys == PositiveLayers(xs[..i])
    {
      assert xs[..i + 1][..i] == xs[..i];
      if xs[i] > 0 {
        ys := ys + [xs[i]];
      }
      i := i + 1;
    }
    assert xs[..|xs|] == xs;
  }

  /** num_samples as saved: at least 2. */
  function AtLeastTwo(n: int): (m: int)
    ensures m >= 2 && (n >= 2 ==> m == n)
    ensures n < 2 ==> m == 2
  {
    if n < 2 then 2 else n
  }

  /** use_volume as saved: 1 when the request sets it to a non-zero value, otherwise 0. */
  function VolumeFlag(req: Request): (v: int)
    ensures v == 0 || v == 1
    ensures v == 1 <==> req.useVolume.Some? && req.useVolume.value != 0
  {
    if req.useVolume.Some? && req.useVolume.value != 0 then 1 else 0
  }

  /** The hidden layers as saved: the positive entries, unless none are positive. */
  function SavedHidden(p: Params, req: Request): seq<int> {
    if req.hiddenArray.Some? && |PositiveLayers(req.hiddenArray.value)| > 0 then
      PositiveLayers(req.hiddenArray.value)
    else p.hiddenArray
  }

  /**
   * Does the request change the network's shape? Only a request that sets
   * the hidden layers or num_samples, or whose use_volume flag differs, can;
   * a request without use_volume switches volume off, which is a change
   * when volume was on.
   */
  predicate TopologyChanged(p: Params, req: Request)
    ensures TopologyChanged(p, req) ==> req.hiddenArray.Some? || req.numSamples.Some? || VolumeFlag(req) != p.useVolume
    ensures req.useVolume.None? && p.useVolume != 0 ==> TopologyChanged(p, req)
  {
    || (req.hiddenArray.Some? && |PositiveLayers(req.hiddenArray.value)| > 0
        && p.hiddenArray != PositiveLayers(req.hiddenArray.value))
    || (req.numSamples.Some? && AtLeastTwo(req.numSamples.value) != p.numSamples)
    || VolumeFlag(req) != p.useVolume
  }

  function Override(current: int, field: Option<int>): int {
    if field.Some? then field.value else current
  }

  /** The parameters after handleSaveRequest's own normalisation. */
  function SavedParams(p: Params, req: Request): (q: Params)
    ensures q.id == p.id && q.path == p.path && q.fannType == p.fannType && q.numOutput == p.numOutput
    ensures q.outputScaling == p.outputScaling && q.biasCompensation == p.biasCompensation
    ensures q.useVolume == 0 || q.useVolume == 1
    ensures forall h :: h in q.hiddenArray && h !in p.hiddenArray ==> h > 0
  {
    p.(hiddenArray := SavedHidden(p, req),
       numSamples := if req.numSamples.Some? then AtLeastTwo(req.numSamples.value) else p.numSamples,
       useVolume := VolumeFlag(req),
       targetDistance := Override(p.targetDistance, req.targetDistance),
       longThreshold := Override(p.longThreshold, req.longThreshold),
       shortThreshold := Override(p.shortThreshold, req.shortThreshold))
  }

  /**
   * A save never leaves fewer than two samples behind when there were at
   * least two, and a request that sets num_samples always leaves at least two.
   */
  lemma SavedSamples(p: Params, req: Request)
    ensures req.numSamples.Some? ==> SavedParams(p, req).numSamples >= 2
    ensures p.numSamples >= 2 ==> SavedParams(p, req).numSamples >= 2
    ensures req.numSamples.None? ==> SavedParams(p, req).numSamples == p.numSamples
  {
  }

  /**
   * The topology counts as changed exactly when one of the three
   * shape-defining parameters gets a new value.
   */
  lemma TopologyChangedExactly(p: Params, req: Request)
    ensures var q := SavedParams(p, req);
      TopologyChanged(p, req) <==>
        q.hiddenArray != p.hiddenArray || q.numSamples != p.numSamples || q.useVolume != p.useVolume
  {
  }

  /**
   * A save that leaves the topology alone leaves the input width and the
   * shortcut-network arguments alone, so the stored network still fits.
   */
  lemma UnchangedTopologyKeepsShape(p: Params, req: Request)
    requires !TopologyChanged(p, req)
    ensures NumInput(SavedParams(p, req)) == NumInput(p)
    ensures NumLayers(SavedParams(p, req)) == NumLayers(p)
    ensures CreateArgs(SavedParams(p, req)) == CreateArgs(p)
  {
    TopologyChangedExactly(p, req);
  }
}
