/**
 * The feature encoder of candlesToData: one window of candles becomes one
 * training example, an input vector of normalised prices (optionally
 * preceded by normalised volumes) and a one-element, clamped target.
 */
module Encoding {

  datatype Candle = Candle(open: real, high: real, low: real, close: real, volume: real)

  /** One training example, as the array {input, output} the source builds. */
  datatype Example = Example(input: seq<real>, output: seq<real>)

  /**
   * Series::normalize(value, min, max) and Series::ohlc4(candle), whose
   * definitions are not part of this model: any functions may be supplied.
   */
  datatype SeriesMath = SeriesMath(normalize: (real, real, real) -> real, ohlc4: Candle -> real)

  /** PHP's intval on a float: truncation toward zero. */
  function IntVal(x: real): int {
    if x >= 0.0 then x.Floor else -((-x).Floor)
  }

  /** intval keeps the integer part: it never moves away from zero, and by less than 1. */
  lemma IntValTruncates(x: real)
    ensures var n := IntVal(x);
      && (0.0 <= x ==> 0.0 <= n as real <= x < n as real + 1.0)
      && (x < 0.0 ==> x <= n as real <= 0.0 && n as real - 1.0 < x)
  {
  }

  /** Open, high, low and close of the first n candles, candle by candle. */
  function Ohlc(s: seq<Candle>, n: nat): (r: seq<real>)
    requires n <= |s|
    ensures |r| == 4 * n
  {
    if n == 0 then [] else Ohlc(s, n - 1) + [s[n - 1].open, s[n - 1].high, s[n - 1].low, s[n - 1].close]
  }

  /** Candle i occupies positions 4i to 4i+3 of the OHLC block, in that order. */
  lemma {:induction false} OhlcAt(s: seq<Candle>, n: nat, i: nat)
    requires i < n <= |s|
    ensures Ohlc(s, n)[4 * i..4 * i + 4] == [s[i].open, s[i].high, s[i].low, s[i].close]
  {
    if i < n - 1 {
      OhlcAt(s, n - 1, i);
      assert Ohlc(s, n)[..4 * (n - 1)] == Ohlc(s, n - 1);
      assert Ohlc(s, n)[4 * i..4 * i + 4] == Ohlc(s, n)[..4 * (n - 1)][4 * i..4 * i + 4];
    }
  }

  /** The intval'd volumes of the first n candles. */
  function Volumes(s: seq<Candle>, n: nat): (r: seq<real>)
    requires n <= |s|
    ensures |r| == n
  {
    if n == 0 then [] else Volumes(s, n - 1) + [IntVal(s[n - 1].volume) as real]
  }

  /** Volume i is candle i's volume, intval'd. */
  lemma {:induction false} VolumesAt(s: seq<Candle>, n: nat, i: nat)
    requires i < n <= |s|
    ensures Volumes(s, n)[i] == IntVal(s[i].volume) as real
  {
    if i < n - 1 {
      VolumesAt(s, n - 1, i);
    }
  }

  /** PHP's min() over a non-empty array. */
  function SeqMin(xs: seq<real>): real
    requires |xs| > 0
  {
    if |xs| == 1 then xs[0]
    else
      var t := SeqMin(xs[1..]);
      if xs[0] <= t then xs[0] else t
  }

  /** min() is an element, and no element is below it. */
  lemma {:induction false} SeqMinIsLeast(xs: seq<real>)
    requires |xs| > 0
    ensures SeqMin(xs) in xs
    ensures forall x :: x in xs ==> SeqMin(xs) <= x
  {
    if |xs| > 1 {
      SeqMinIsLeast(xs[1..]);
      assert forall x :: x in xs ==> x == xs[0] || x in xs[1..];
    }
  }

  /** PHP's max() over a non-empty array. */
  function SeqMax(xs: seq<real>): real
    requires |xs| > 0
  {
    if |xs| == 1 then xs[0]
    else
      var t := SeqMax(xs[1..]);
      if xs[0] >= t then xs[0] else t
  }

  /** max() is an element, and no element is above it. */
  lemma {:induction false} SeqMaxIsGreatest(xs: seq<real>)
    requires |xs| > 0
    ensures SeqMax(xs) in xs
    ensures forall x :: x in xs ==> x <= SeqMax(xs)
  {
    if |xs| > 1 {
      SeqMaxIsGreatest(xs[1..]);
      assert forall x :: x in xs ==> x == xs[0] || x in xs[1..];
    }
  }

  /** The target is cut to [-1, 1]; values inside are kept. */
  function Clamp(x: real): real {
    if x > 1.0 then 1.0 else if x < -1.0 then -1.0 else x
  }

  /** Clamping lands in [-1, 1], keeps values already there and cuts the rest to the nearer end. */
  lemma ClampRange(x: real)
    ensures -1.0 <= Clamp(x) <= 1.0
    ensures -1.0 <= x <= 1.0 ==> Clamp(x) == x
    ensures x > 1.0 ==> Clamp(x) == 1.0
    ensures x < -1.0 ==> Clamp(x) == -1.0
  {
  }

  /** Every value passed through normalize with the same bounds. */
  function NormalizeAll(xs: seq<real>, lo: real, hi: real, f: (real, real, real) -> real): seq<real> {
    seq(|xs|, i requires 0 <= i < |xs| => f(xs[i], lo, hi))
  }

  /** The raw price input: OHLC of the first n-1 candles, then the open of candle n-1. */
  function RawInput(s: seq<Candle>, n: nat): (r: seq<real>)
    requires 1 <= n <= |s|
    ensures |r| == 4 * (n - 1) + 1
  {
    Ohlc(s, n - 1) + [s[n - 1].open]
  }

  /** The price block of the input, normalised between its own minimum and maximum. */
  function PriceInput(s: seq<Candle>, n: nat, f: (real, real, real) -> real): seq<real>
    requires 1 <= n <= |s|
  {
    var raw := RawInput(s, n);
    NormalizeAll(raw, SeqMin(raw), SeqMax(raw), f)
  }

  /** The volume block: the first n-1 volumes, normalised between their own extremes. */
  function VolumeInput(s: seq<Candle>, n: nat, f: (real, real, real) -> real): seq<real>
    requires 2 <= n <= |s|
  {
    var v := Volumes(s, n - 1);
    NormalizeAll(v, SeqMin(v), SeqMax(v), f)
  }

  /** What candlesToData needs of a window to encode it without dividing by zero. */
  predicate Encodable(s: seq<Candle>, n: int, scaling: real, math: SeriesMath) {
    2 <= n <= |s| && scaling != 0.0 && math.ohlc4(s[n - 1]) != 0.0
  }

  /**
   * The target: percentage change of the last candle's ohlc4 over the last
   * input candle's ohlc4, divided by output_scaling and clamped.
   */
  function TargetOutput(s: seq<Candle>, n: int, scaling: real, ohlc4: Candle -> real): (y: real)
    requires 1 <= n <= |s| && scaling != 0.0 && ohlc4(s[n - 1]) != 0.0
    ensures -1.0 <= y <= 1.0
  {
    var last := ohlc4(s[n - 1]);
    ClampRange((ohlc4(s[|s| - 1]) - last) * 100.0 / last / scaling);
    Clamp((ohlc4(s[|s| - 1]) - last) * 100.0 / last / scaling)
  }

  /** The example candlesToData builds from one window. */
  function Encode(s: seq<Candle>, n: int, useVolume: bool, scaling: real, math: SeriesMath): (e: Example)
    requires Encodable(s, n, scaling, math)
    ensures |e.output| == 1 && -1.0 <= e.output[0] <= 1.0
  {
    var volumes := if useVolume then VolumeInput(s, n, math.normalize) else [];
    Example(volumes + PriceInput(s, n, math.normalize), [TargetOutput(s, n, scaling, math.ohlc4)])
  }

  /**
   * Every example has (n-1)*fields + 1 inputs, the n-1 normalised volumes
   * (when used) ahead of the normalised price block, and exactly one
   * output, which lies in [-1, 1].
   */
  lemma EncodeShape(s: seq<Candle>, n: int, useVolume: bool, scaling: real, math: SeriesMath)
    requires Encodable(s, n, scaling, math)
    ensures var e := Encode(s, n, useVolume, scaling, math);
      && |e.input| == (n - 1) * (if useVolume then 5 else 4) + 1
      && |e.output| == 1
      && -1.0 <= e.output[0] <= 1.0
      && (useVolume ==> e.input[..n - 1] == VolumeInput(s, n, math.normalize))
      && e.input[|e.input| - (4 * (n - 1) + 1)..] == PriceInput(s, n, math.normalize)
  {
    var e := Encode(s, n, useVolume, scaling, math);
    ClampRange((math.ohlc4(s[|s| - 1]) - math.ohlc4(s[n - 1])) * 100.0 / math.ohlc4(s[n - 1]) / scaling);
    if useVolume {
      assert e.input[..n - 1] == VolumeInput(s, n, math.normalize);
    }
    assert e.input[|e.input| - (4 * (n - 1) + 1)..] == PriceInput(s, n, math.normalize);
  }

  /**
   * Which candle value sits where in the price block: candle i < n-1
   * gives its open, high, low and close at positions 4i..4i+3, and the
   * last input candle gives only its open, at the end.
   */
  lemma {:induction false} PriceInputAt(s: seq<Candle>, n: nat, f: (real, real, real) -> real, i: nat)
    requires 1 <= n <= |s| && i < n
    ensures var raw := RawInput(s, n);
      var lo, hi := SeqMin(raw), SeqMax(raw);
      var p := PriceInput(s, n, f);
      && |p| == 4 * (n - 1) + 1
      && p[4 * i] == f(s[i].open, lo, hi)
      && (i < n - 1 ==>
            && p[4 * i + 1] == f(s[i].high, lo, hi)
            && p[4 * i + 2] == f(s[i].low, lo, hi)
            && p[4 * i + 3] == f(s[i].close, lo, hi))
  {
    var raw := RawInput(s, n);
    if i < n - 1 {
      var block := Ohlc(s, n - 1);
      OhlcAt(s, n - 1, i);
      assert raw[..4 * (n - 1)] == block;
      var q := block[4 * i..4 * i + 4];
      assert q[0] == raw[4 * i] && q[1] == raw[4 * i + 1] && q[2] == raw[4 * i + 2] && q[3] == raw[4 * i + 3];
    }
  }

  /**
   * The min-max normalisation to [-1, 1]: 2(v-min)/(max-min) - 1, with a
   * zero-width range mapped to 0.
   */
  function MinMax(v: real, lo: real, hi: real): real {
    if hi == lo then 0.0 else 2.0 * (v - lo) / (hi - lo) - 1.0
  }

  lemma UnitQuotient(a: real, b: real)
    requires 0.0 <= a <= b && b > 0.0
    ensures 0.0 <= a / b <= 1.0
  {
    assert a / b * b == a;
  }

  /** Inside a non-degenerate range, min-max normalisation stays in [-1, 1]. */
  lemma MinMaxBounds(v: real, lo: real, hi: real)
    requires lo <= v <= hi && lo < hi
    ensures -1.0 <= MinMax(v, lo, hi) <= 1.0
  {
    var q := (v - lo) / (hi - lo);
    UnitQuotient(v - lo, hi - lo);
    assert 2.0 * (v - lo) / (hi - lo) == 2.0 * q;
  }

  /** The range's own ends map to -1 and 1. */
  lemma MinMaxEnds(lo: real, hi: real)
    requires lo < hi
    ensures MinMax(lo, lo, hi) == -1.0 && MinMax(hi, lo, hi) == 1.0
  {
    assert 2.0 * (hi - lo) / (hi - lo) == 2.0;
  }

  /**
   * With min-max normalisation and a non-degenerate range, a normalised
   * block lies in [-1, 1] and reaches both -1 and 1.
   */
  lemma MinMaxRange(xs: seq<real>)
    requires |xs| > 0 && SeqMin(xs) < SeqMax(xs)
    ensures var r := NormalizeAll(xs, SeqMin(xs), SeqMax(xs), MinMax);
      && (forall i :: 0 <= i < |r| ==> -1.0 <= r[i] <= 1.0)
      && (exists i :: 0 <= i < |r| && r[i] == -1.0)
      && (exists i :: 0 <= i < |r| && r[i] == 1.0)
  {
    var lo, hi := SeqMin(xs), SeqMax(xs);
    SeqMinIsLeast(xs);
    SeqMaxIsGreatest(xs);
    var r := NormalizeAll(xs, lo, hi, MinMax);
    forall i | 0 <= i < |r|
      ensures -1.0 <= r[i] <= 1.0
    {
      assert xs[i] in xs;
      MinMaxBounds(xs[i], lo, hi);
    }
    MinMaxEnds(lo, hi);
    var a :| 0 <= a < |xs| && xs[a] == lo;
    var b :| 0 <= b < |xs| && xs[b] == hi;
    assert r[a] == MinMax(lo, lo, hi);
    assert r[b] == MinMax(hi, lo, hi);
  }

  /** The foreach of candlesToData that normalises a block in place. */
  method NormalizeEach(xs: seq<real>, lo: real, hi: real, f: (real, real, real) -> real) returns (ys: seq<real>)
    ensures ys == NormalizeAll(xs, lo, hi, f)
  {
    ys := xs;
    var k := 0;
    while k < |ys|
      invariant 0 <= k <= |ys| == |xs|
      invariant forall j :: 0 <= j < k ==> ys[j] == f(xs[j], lo, hi)
      invariant forall j :: k <= j < |ys| ==> ys[j] == xs[j]
    {
      ys := ys[k := f(ys[k], lo, hi)];
      k := k + 1;
    }
  }

  /** The loop collecting the intval'd volumes of the first n-1 candles. */
  method CollectVolumes(sample: seq<Candle>, n: int) returns (volumes: seq<real>)
    requires 1 <= n <= |sample|
    ensures volumes == Volumes(sample, n - 1)
  {
    volumes := [];
    var i := 0;
    while i < n - 1
      invariant 0 <= i <= n - 1
      invariant volumes == Volumes(sample, i)
    {
      volumes := volumes + [IntVal(sample[i].volume) as real];
      i := i + 1;
    }
  }

  /**
   * The loop collecting the prices: OHLC of the first n-1 candles, the
   * open of candle n-1, whose ohlc4 it also takes.
   */
  method CollectPrices(sample: seq<Candle>, n: int, ohlc4: Candle -> real) returns (input: seq<real>, lastOhlc4: real)
    requires 1 <= n <= |sample|
    ensures input == RawInput(sample, n)
    ensures lastOhlc4 == ohlc4(sample[n - 1])
  {
    input := [];
    lastOhlc4 := 0.0;
    var i := 0;
    while i < n
      invariant 0 <= i <= n
      invariant i < n ==> input == Ohlc(sample, i)
      invariant i == n ==> input == RawInput(sample, n) && lastOhlc4 == ohlc4(sample[n - 1])
    {
      if i < n - 1 {
        input := input + [sample[i].open, sample[i].high, sample[i].low, sample[i].close];
      } else {
        // only the open price of the last input candle
        input := input + [sample[i].open];
        lastOhlc4 := ohlc4(sample[i]);
      }
      i := i + 1;
    }
  }

  /** The body of candlesToData's loop: encodes one window. */
  method EncodeWindow(sample: seq<Candle>, n: int, useVolume: bool, scaling: real, math: SeriesMath)
    returns (e: Example)
    requires Encodable(sample, n, scaling, math)
    ensures e == Encode(sample, n, useVolume, scaling, math)
  {
    var volumes: seq<real> := [];
    if useVolume {
      volumes := CollectVolumes(sample, n);
    }
    var input, lastOhlc4 := CollectPrices(sample, n, math.ohlc4);
    var output := math.ohlc4(sample[|sample| - 1]);
    if useVolume {
      volumes := NormalizeEach(volumes, SeqMin(volumes), SeqMax(volumes), math.normalize);
    }
    input := NormalizeEach(input, SeqMin(input), SeqMax(input), math.normalize);
    var delta := output - lastOhlc4;
    var y := delta * 100.0 / lastOhlc4 / scaling;
    if y > 1.0 {
      y := 1.0;
    } else if y < -1.0 {
      y := -1.0;
    }
    if useVolume {
      input := volumes + input;
    }
    e := Example(input, [y]);
  }
}
