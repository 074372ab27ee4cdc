/**
 * The sample windower of resetSample/nextSample: a cursor into the candle
 * sequence and a FIFO buffer of the most recent candles, advanced one
 * call at a time; and the dataset candlesToData builds from its windows.
 */
module Windowing {
  import opened Outcomes
  import opened Encoding

  /** The windower's state: the shared sample buffer and _sample_iterator. */
  datatype Cursor = Cursor(buffer: seq<Candle>, index: nat)

  /** One nextSample call: the state after it and the window it returned (None for null). */
  datatype Pull = Pull(cursor: Cursor, window: Option<seq<Candle>>)

  /** The state resetSample leaves. */
  const Reset := Cursor([], 0)

  function Min(a: int, b: int): int {
    if a <= b then a else b
  }

  /**
   * What one nextSample call does, in closed form. An empty source gives
   * null at once. Otherwise candles are pushed from the cursor on until
   * the buffer reaches `size` (or, when it already had `size` or more, one
   * candle is pushed and the oldest dropped); when the source runs out
   * first, every remaining candle has been pushed and the result is null.
   */
  function Advance(c: Cursor, candles: seq<Candle>, size: int): (r: Pull)
    ensures |candles| == 0 ==> r == Pull(c, None)
    ensures r.window.Some? ==> r.window.value == r.cursor.buffer
    ensures r.window.Some? && |c.buffer| <= size ==> |r.window.value| == size
    ensures c.index <= r.cursor.index
    ensures c.index <= |candles| ==> r.cursor.index <= |candles|
  {
    if |candles| == 0 then Pull(c, None)
    else
      var held := |c.buffer|;
      var pushes: nat := if held < size then size - held else 1;
      if c.index + pushes <= |candles| then
        var grown := c.buffer + candles[c.index..c.index + pushes];
        var w := if held + pushes > size then grown[1..] else grown;
        Pull(Cursor(w, c.index + pushes), Some(w))
      else if c.index <= |candles| then
        Pull(Cursor(c.buffer + candles[c.index..], |candles|), None)
      else
        Pull(c, None)
  }

  /** A call that fills a short buffer up to `size` returns the filled buffer. */
  lemma AdvanceFills(buf: seq<Candle>, it: nat, it': nat, candles: seq<Candle>, size: int)
    requires |buf| < size && it <= it' <= |candles| && |buf| + (it' - it) == size
    ensures var full := buf + candles[it..it'];
      Advance(Cursor(buf, it), candles, size) == Pull(Cursor(full, it'), Some(full))
  {
  }

  /** A call on a buffer already holding `size` or more pushes one candle and drops the oldest. */
  lemma AdvanceSlides(buf: seq<Candle>, it: nat, candles: seq<Candle>, size: int)
    requires |buf| >= size && it < |candles|
    ensures var next := (buf + [candles[it]])[1..];
      Advance(Cursor(buf, it), candles, size) == Pull(Cursor(next, it + 1), Some(next))
  {
    assert candles[it..it + 1] == [candles[it]];
  }

  /** A call that runs out of candles before the buffer is full pushes them all and returns null. */
  lemma AdvanceRunsOut(buf: seq<Candle>, it: nat, candles: seq<Candle>, size: int)
    requires 0 < |candles| && it <= |candles|
    requires |buf| + (|candles| - it) < size || (|buf| >= size && it == |candles|)
    ensures Advance(Cursor(buf, it), candles, size) == Pull(Cursor(buf + candles[it..], |candles|), None)
  {
  }

  /**
   * The buffer holds exactly the last min(iterator, w) candles before the
   * cursor: the state every pass started by resetSample keeps.
   */
  ghost predicate Consistent(c: Cursor, candles: seq<Candle>, w: int) {
    && c.index <= |candles|
    && |c.buffer| == Min(c.index, w)
    && c.buffer == candles[c.index - |c.buffer|..c.index]
  }

  /** The k-th window of a pass, or None past the last one. */
  function WindowAt(candles: seq<Candle>, w: nat, k: nat): Option<seq<Candle>> {
    if k + w <= |candles| then Some(candles[k..k + w]) else None
  }

  /** While the buffer fills and the source has a full window: the first window. */
  lemma AdvanceFilling(c: Cursor, candles: seq<Candle>, w: int)
    requires w >= 1 && Consistent(c, candles, w) && c.index < w <= |candles|
    ensures Advance(c, candles, w) == Pull(Cursor(candles[0..w], w), Some(candles[0..w]))
  {
    assert c.buffer == candles[0..c.index];
    assert c.buffer + candles[c.index..w] == candles[0..w];
  }

  /** While the buffer fills and the source is shorter than a window: everything is pushed, null. */
  lemma AdvanceShort(c: Cursor, candles: seq<Candle>, w: int)
    requires w >= 1 && Consistent(c, candles, w) && c.index < w && |candles| < w && |candles| > 0
    ensures Advance(c, candles, w) == Pull(Cursor(candles, |candles|), None)
  {
    assert c.buffer == candles[0..c.index];
    assert c.buffer + candles[c.index..] == candles;
  }

  /** With a full buffer and a candle left: the window slides by one. */
  lemma AdvanceSliding(c: Cursor, candles: seq<Candle>, w: int)
    requires w >= 1 && Consistent(c, candles, w) && w <= c.index < |candles|
    ensures var k := c.index + 1;
      Advance(c, candles, w) == Pull(Cursor(candles[k - w..k], k), Some(candles[k - w..k]))
  {
    var it := c.index;
    assert c.buffer == candles[it - w..it];
    assert c.buffer + candles[it..it + 1] == candles[it - w..it + 1];
    assert candles[it - w..it + 1][1..] == candles[it + 1 - w..it + 1];
  }

  /** With a full buffer at the end of the source: null, nothing changes. */
  lemma AdvanceAtEnd(c: Cursor, candles: seq<Candle>, w: int)
    requires w >= 1 && Consistent(c, candles, w) && w <= c.index == |candles| && |candles| > 0
    ensures Advance(c, candles, w) == Pull(c, None)
  {
    assert c.buffer + candles[c.index..] == c.buffer;
  }

  /**
   * From a consistent state, a call returns the w candles ending at
   * max(iterator+1, w) when the source has them, and null (with the
   * cursor at the end) otherwise; the state stays consistent, so the
   * buffer never holds more than w candles.
   */
  lemma AdvanceWindow(c: Cursor, candles: seq<Candle>, w: int)
    requires w >= 1 && Consistent(c, candles, w)
    ensures var k := if c.index + 1 > w then c.index + 1 else w;
      var pl := Advance(c, candles, w);
      && Consistent(pl.cursor, candles, w)
      && |pl.cursor.buffer| <= w
      && (k <= |candles| ==> pl.window == Some(candles[k - w..k]) && pl.cursor.index == k)
      && (k > |candles| ==> pl.window == None && pl.cursor.index == |candles|)
  {
    if |candles| > 0 {
      if c.index < w {
        if w <= |candles| {
          AdvanceFilling(c, candles, w);
        } else {
          AdvanceShort(c, candles, w);
        }
      } else if c.index < |candles| {
        AdvanceSliding(c, candles, w);
      } else {
        AdvanceAtEnd(c, candles, w);
      }
    }
  }

  /** Where a pass stands after j nextSample calls. */
  ghost predicate AfterCalls(c: Cursor, candles: seq<Candle>, w: nat, j: nat) {
    Consistent(c, candles, w) && c.index == PositionAfter(j, w, |candles|)
  }

  /** The results of n successive nextSample calls from a given state. */
  function Replay(c: Cursor, candles: seq<Candle>, size: int, n: nat): (r: seq<Option<seq<Candle>>>)
    ensures |r| == n
    decreases n
  {
    if n == 0 then []
    else
      var pl := Advance(c, candles, size);
      [pl.window] + Replay(pl.cursor, candles, size, n - 1)
  }

  /** Where the cursor stands after j calls of a pass. */
  function PositionAfter(j: nat, w: nat, n: nat): nat {
    if j == 0 then 0 else Min(j + w - 1, n)
  }

  lemma {:induction false} ReplayFrom(c: Cursor, candles: seq<Candle>, w: nat, j: nat, m: nat)
    requires w >= 1 && AfterCalls(c, candles, w, j)
    ensures forall k :: 0 <= k < m ==> Replay(c, candles, w, m)[k] == WindowAt(candles, w, j + k)
    decreases m
  {
    if m > 0 {
      PassStepAt(c, candles, w, j);
      var pl := Advance(c, candles, w);
      var rest := Replay(pl.cursor, candles, w, m - 1);
      ReplayFrom(pl.cursor, candles, w, j + 1, m - 1);
      var r := Replay(c, candles, w, m);
      assert r == [pl.window] + rest;
      forall k | 0 <= k < m
        ensures r[k] == WindowAt(candles, w, j + k)
      {
        if k > 0 {
          assert r[k] == rest[k - 1];
        }
      }
    }
  }

  /**
   * After resetSample, the k-th of m nextSample calls (from 0) returns
   * candles[k..k+w] while the source has them and null from then on.
   */
  lemma WindowsInOrder(candles: seq<Candle>, w: nat, m: nat, k: nat)
    requires w >= 1 && k < m
    ensures Replay(Reset, candles, w, m)[k] == if k + w <= |candles| then Some(candles[k..k + w]) else None
  {
    assert AfterCalls(Reset, candles, w, 0) by {
      assert candles[0..0] == [];
    }
    ReplayFrom(Reset, candles, w, 0, m);
    assert Replay(Reset, candles, w, m)[k] == WindowAt(candles, w, 0 + k);
  }

  /** How many windows a pass over n candles yields. */
  function NumWindows(n: nat, w: nat): nat {
    if w <= n then n - w + 1 else 0
  }

  /** What candlesToData needs of the whole source. */
  ghost predicate EncodableSource(candles: seq<Candle>, n: int, w: int, scaling: real, math: SeriesMath) {
    2 <= n <= w && scaling != 0.0 && forall i :: 0 <= i < |candles| ==> math.ohlc4(candles[i]) != 0.0
  }

  /** The first m windows of a pass, in order: candles[k..k+w] for k < m. */
  function Windows(candles: seq<Candle>, w: nat, m: nat): (ws: seq<seq<Candle>>)
    requires m <= NumWindows(|candles|, w)
    ensures |ws| == m
  {
    if m == 0 then [] else Windows(candles, w, m - 1) + [candles[m - 1..m - 1 + w]]
  }

  lemma {:induction false} WindowsAt(candles: seq<Candle>, w: nat, m: nat, k: nat)
    requires k < m <= NumWindows(|candles|, w)
    ensures Windows(candles, w, m)[k] == candles[k..k + w]
    decreases m
  {
    if k < m - 1 {
      WindowsAt(candles, w, m - 1, k);
    }
  }

  /** The windows of a whole pass. */
  function AllWindows(candles: seq<Candle>, w: nat): (ws: seq<seq<Candle>>)
    ensures |ws| == NumWindows(|candles|, w)
  {
    Windows(candles, w, NumWindows(|candles|, w))
  }

  /** The k-th nextSample call of a pass returns the k-th window, null past the last one. */
  function PassWindow(candles: seq<Candle>, w: nat, k: nat): Option<seq<Candle>> {
    if k < NumWindows(|candles|, w) then Some(AllWindows(candles, w)[k]) else None
  }

  /** Every window of a pass holds w candles. */
  lemma PassWindowLength(candles: seq<Candle>, w: nat, k: nat)
    ensures PassWindow(candles, w, k).Some? ==> |PassWindow(candles, w, k).value| == w
  {
    if k < NumWindows(|candles|, w) {
      WindowsAt(candles, w, NumWindows(|candles|, w), k);
    }
  }

  /** The windows of a pass are the windows nextSample returns. */
  lemma PassWindowAt(candles: seq<Candle>, w: nat, k: nat)
    requires w >= 1
    ensures PassWindow(candles, w, k) == WindowAt(candles, w, k)
  {
    if k < NumWindows(|candles|, w) {
      WindowsAt(candles, w, NumWindows(|candles|, w), k);
    }
  }

  /** One step of a pass, in terms of the candles: the call after j calls returns the window at j. */
  lemma PassStepAt(c: Cursor, candles: seq<Candle>, w: nat, j: nat)
    requires w >= 1 && AfterCalls(c, candles, w, j)
    ensures var pl := Advance(c, candles, w);
      && pl.window == WindowAt(candles, w, j)
      && AfterCalls(pl.cursor, candles, w, j + 1)
  {
    AdvanceWindow(c, candles, w);
    if j == 0 {
      assert c.index == 0;
    } else if j + w - 1 <= |candles| {
      assert c.index == j + w - 1;
    } else {
      assert c.index == |candles|;
    }
  }

  /**
   * One step of a pass: after j calls the next call returns the window at
   * j and leaves the cursor where j + 1 calls leave it.
   */
  lemma PassStep(c: Cursor, candles: seq<Candle>, w: nat, j: nat)
    requires w >= 1 && AfterCalls(c, candles, w, j)
    ensures var pl := Advance(c, candles, w);
      && pl.window == PassWindow(candles, w, j)
      && AfterCalls(pl.cursor, candles, w, j + 1)
  {
    PassStepAt(c, candles, w, j);
    PassWindowAt(candles, w, j);
  }

  /** Once a call has returned null, every window has been seen and the cursor stands at the end. */
  lemma PassEnd(c: Cursor, candles: seq<Candle>, w: nat, j: nat)
    requires w >= 1 && j >= 1 && AfterCalls(c, candles, w, j)
    requires PassWindow(candles, w, j - 1).None? || |PassWindow(candles, w, j - 1).value| == 0
    requires j - 1 <= NumWindows(|candles|, w)
    ensures j - 1 == NumWindows(|candles|, w)
    ensures c.index == |candles| && Consistent(c, candles, w)
  {
    PassWindowLength(candles, w, j - 1);
  }

  /** Every window in the sequence can be encoded. */
  ghost predicate AllEncodable(ws: seq<seq<Candle>>, n: int, scaling: real, math: SeriesMath) {
    forall k :: 0 <= k < |ws| ==> Encodable(ws[k], n, scaling, math)
  }

  /** Every window of an encodable source can be encoded. */
  lemma WindowsEncodable(candles: seq<Candle>, n: int, w: nat, scaling: real, math: SeriesMath)
    requires EncodableSource(candles, n, w, scaling, math)
    ensures AllEncodable(AllWindows(candles, w), n, scaling, math)
  {
    var ws := AllWindows(candles, w);
    forall k | 0 <= k < |ws|
      ensures Encodable(ws[k], n, scaling, math)
    {
      WindowsAt(candles, w, |ws|, k);
      assert ws[k][n - 1] == candles[k + n - 1];
    }
  }

  /** Encode with the strategy's settings fixed. */
  function Encoder(n: int, useVolume: bool, scaling: real, math: SeriesMath): seq<Candle> --> Example {
    s requires Encodable(s, n, scaling, math) => Encode(s, n, useVolume, scaling, math)
  }

  ghost predicate Applicable(ws: seq<seq<Candle>>, enc: seq<Candle> --> Example) {
    forall k :: 0 <= k < |ws| ==> enc.requires(ws[k])
  }

  /** The examples of a sequence of windows, in order. */
  function EncodeAll(ws: seq<seq<Candle>>, enc: seq<Candle> --> Example): (d: seq<Example>)
    requires Applicable(ws, enc)
    ensures |d| == |ws|
  {
    seq(|ws|, k requires 0 <= k < |ws| => enc(ws[k]))
  }

  /** The dataset candlesToData stores: one example per window. */
  function Dataset(candles: seq<Candle>, n: int, w: nat, useVolume: bool, scaling: real, math: SeriesMath)
    : (d: seq<Example>)
    requires EncodableSource(candles, n, w, scaling, math)
    ensures |d| == NumWindows(|candles|, w)
  {
    WindowsEncodable(candles, n, w, scaling, math);
    EncodeAll(AllWindows(candles, w), Encoder(n, useVolume, scaling, math))
  }

  /** The dataset's k-th example encodes the pass's k-th window. */
  lemma DatasetWindow(candles: seq<Candle>, n: int, w: nat, useVolume: bool, scaling: real, math: SeriesMath, k: nat)
    requires EncodableSource(candles, n, w, scaling, math) && k < NumWindows(|candles|, w)
    ensures Encodable(AllWindows(candles, w)[k], n, scaling, math)
    ensures Dataset(candles, n, w, useVolume, scaling, math)[k] == Encode(AllWindows(candles, w)[k], n, useVolume, scaling, math)
  {
    WindowsEncodable(candles, n, w, scaling, math);
  }

  /**
   * The dataset holds, at position k, the example encoding the window
   * candles[k..k+w]: one per window, in the order nextSample yields them.
   */
  lemma DatasetAt(candles: seq<Candle>, n: int, w: nat, useVolume: bool, scaling: real, math: SeriesMath, k: nat)
    requires EncodableSource(candles, n, w, scaling, math) && k < NumWindows(|candles|, w)
    ensures Encodable(candles[k..k + w], n, scaling, math)
    ensures Dataset(candles, n, w, useVolume, scaling, math)[k] == Encode(candles[k..k + w], n, useVolume, scaling, math)
  {
    DatasetWindow(candles, n, w, useVolume, scaling, math, k);
    WindowsAt(candles, w, NumWindows(|candles|, w), k);
  }
}
