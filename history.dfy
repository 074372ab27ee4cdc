/**
 * The fann_history table as an in-memory sequence of rows, and the
 * queries the strategy runs on it: count, delete, last epoch and the
 * every-nth-epoch pruning.
 */
module History {

  datatype Record = Record(strategyId: int, epoch: int, name: string, value: real)

  /** The fann_history table, shared by every strategy. */
  class HistoryTable {
    var rows: seq<Record>

    constructor ()
      ensures rows == []
    {
      rows := [];
    }
  }

  /** How many rows belong to a strategy. */
  function Count(rows: seq<Record>, id: int): (n: nat)
    ensures n <= |rows|
  {
    if rows == [] then 0 else (if rows[0].strategyId == id then 1 else 0) + Count(rows[1..], id)
  }

  /** Appending a row counts it for its own strategy only. */
  lemma {:induction false} CountAppend(rows: seq<Record>, r: Record, id: int)
    ensures Count(rows + [r], id) == Count(rows, id) + (if r.strategyId == id then 1 else 0)
  {
    if rows != [] {
      assert (rows + [r])[1..] == rows[1..] + [r];
      CountAppend(rows[1..], r, id);
    }
  }

  /** A strategy with a positive count has a row. */
  lemma {:induction false} CountPositive(rows: seq<Record>, id: int)
    ensures Count(rows, id) > 0 <==> exists r :: r in rows && r.strategyId == id
  {
    if rows != [] {
      CountPositive(rows[1..], id);
      assert forall r :: r in rows <==> r == rows[0] || r in rows[1..];
    }
  }

  /** The rows left after deleting a strategy's rows, in their order. */
  function RemoveStrategy(rows: seq<Record>, id: int): (kept: seq<Record>)
    ensures forall r :: r in kept <==> r in rows && r.strategyId != id
    ensures |rows| - |kept| == Count(rows, id)
    ensures Count(kept, id) == 0
  {
    if rows == [] then []
    else
      var rest := RemoveStrategy(rows[1..], id);
      assert forall r :: r in rows <==> r == rows[0] || r in rows[1..];
      if rows[0].strategyId == id then rest else [rows[0]] + rest
  }

  /** Every copy of another strategy's row survives the delete, and no copy of the strategy's. */
  lemma {:induction false} RemoveStrategyCopies(rows: seq<Record>, id: int)
    ensures forall r :: multiset(RemoveStrategy(rows, id))[r] == if r.strategyId == id then 0 else multiset(rows)[r]
  {
    if rows != [] {
      RemoveStrategyCopies(rows[1..], id);
      assert rows == [rows[0]] + rows[1..];
    }
  }

  /** A row the pruning deletes: the strategy's, in one of the chosen epochs. */
  predicate Doomed(r: Record, id: int, epochs: set<int>) {
    r.strategyId == id && r.epoch in epochs
  }

  /** The rows left after deleting a strategy's rows of the given epochs, in their order. */
  function RemoveEpochs(rows: seq<Record>, id: int, epochs: set<int>): (kept: seq<Record>)
    ensures forall r :: r in kept <==> r in rows && !Doomed(r, id, epochs)
    ensures |kept| <= |rows|
  {
    if rows == [] then []
    else
      var rest := RemoveEpochs(rows[1..], id, epochs);
      assert forall r :: r in rows <==> r == rows[0] || r in rows[1..];
      if Doomed(rows[0], id, epochs) then rest else [rows[0]] + rest
  }

  /** Every copy of a row that is not doomed survives the delete, and no copy of a doomed one. */
  lemma {:induction false} RemoveEpochsCopies(rows: seq<Record>, id: int, epochs: set<int>)
    ensures forall r ::
      multiset(RemoveEpochs(rows, id, epochs))[r] == if Doomed(r, id, epochs) then 0 else multiset(rows)[r]
  {
    if rows != [] {
      RemoveEpochsCopies(rows[1..], id, epochs);
      assert rows == [rows[0]] + rows[1..];
    }
  }

  /** Deleting no epochs keeps every row. */
  lemma {:induction false} RemoveNothing(rows: seq<Record>, id: int)
    ensures RemoveEpochs(rows, id, {}) == rows
  {
    if rows != [] {
      RemoveNothing(rows[1..], id);
    }
  }

  /** Deleting one set of epochs after another deletes their union. */
  lemma {:induction false} RemoveEpochsTwice(rows: seq<Record>, id: int, a: set<int>, b: set<int>)
    ensures RemoveEpochs(RemoveEpochs(rows, id, a), id, b) == RemoveEpochs(rows, id, a + b)
  {
    if rows != [] {
      RemoveEpochsTwice(rows[1..], id, a, b);
    }
  }

  /** The highest epoch of a strategy's rows, 0 when it has none. */
  function LastEpoch(rows: seq<Record>, id: int): (e: int)
    ensures Count(rows, id) == 0 ==> e == 0
    ensures Count(rows, id) > 0 ==>
      (exists r :: r in rows && r.strategyId == id && r.epoch == e)
      && forall r :: r in rows && r.strategyId == id ==> r.epoch <= e
  {
    if rows == [] then 0
    else
      var t := LastEpoch(rows[1..], id);
      CountPositive(rows[1..], id);
      assert forall r :: r in rows <==> r == rows[0] || r in rows[1..];
      if rows[0].strategyId != id then t
      else if Count(rows[1..], id) == 0 || rows[0].epoch >= t then rows[0].epoch
      else t
  }

  /** pruneHistory's $count when it examines the i-th epoch (from 0). */
  function CyclicCount(i: nat, n: int): int
    requires n >= 2
  {
    if i == 0 then 1
    else
      var c := CyclicCount(i - 1, n) + 1;
      if c > n then 1 else c
  }

  lemma {:induction false} MulAtLeast(a: int, n: int)
    requires a >= 1 && n > 0
    ensures a * n >= n
    decreases a
  {
    if a > 1 {
      MulAtLeast(a - 1, n);
      assert a * n == (a - 1) * n + n;
    }
  }

  /** Euclidean remainders are unique. */
  lemma ModUnique(x: int, n: int, q: int, r: int)
    requires n > 0 && 0 <= r < n && x == q * n + r
    ensures x % n == r
  {
    var q', r' := x / n, x % n;
    var d := q - q';
    assert d * n == r' - r by {
      assert x == q' * n + r';
      assert d * n == q * n - q' * n;
    }
    if d > 0 {
      MulAtLeast(d, n);
    } else if d < 0 {
      MulAtLeast(-d, n);
    }
  }

  lemma ModSucc(i: nat, n: int)
    requires n >= 2
    ensures (i + 1) % n == if i % n + 1 == n then 0 else i % n + 1
  {
    var q, r := i / n, i % n;
    assert i == q * n + r;
    if r + 1 == n {
      assert i + 1 == (q + 1) * n + 0;
      ModUnique(i + 1, n, q + 1, 0);
    } else {
      assert i + 1 == q * n + (r + 1);
      ModUnique(i + 1, n, q, r + 1);
    }
  }

  /** The cyclic counter is the 1-based position taken modulo n. */
  lemma {:induction false} CyclicCountIsPosition(i: nat, n: int)
    requires n >= 2
    ensures CyclicCount(i, n) == i % n + 1
  {
    if i > 0 {
      CyclicCountIsPosition(i - 1, n);
      ModSucc(i - 1, n);
    }
  }

  /** The epochs pruneHistory deletes among the first i of the listed epochs. */
  function PrunedEpochs(es: seq<int>, n: int, i: nat): set<int>
    requires n >= 2 && i <= |es|
  {
    if i == 0 then {}
    else PrunedEpochs(es, n, i - 1) + (if CyclicCount(i - 1, n) == n then {es[i - 1]} else {})
  }

  /** An epoch is pruned exactly when it is listed at a 1-based position divisible by n. */
  lemma {:induction false} PrunedEpochsAt(es: seq<int>, n: int, i: nat, e: int)
    requires n >= 2 && i <= |es|
    ensures e in PrunedEpochs(es, n, i) <==> exists j :: 0 <= j < i && es[j] == e && (j + 1) % n == 0
  {
    if i > 0 {
      PrunedEpochsAt(es, n, i - 1, e);
      CyclicCountIsPosition(i - 1, n);
      ModSucc(i - 1, n);
      if CyclicCount(i - 1, n) == n && es[i - 1] == e {
        assert (i - 1 + 1) % n == 0;
      }
    }
  }

  /**
   * What the distinct-epoch query answers: each epoch of the strategy's
   * rows exactly once, in an order the storage chooses.
   */
  ghost predicate EpochListing(es: seq<int>, rows: seq<Record>, id: int) {
    && (forall i, j :: 0 <= i < j < |es| ==> es[i] != es[j])
    && (forall e :: e in es <==> exists r :: r in rows && r.strategyId == id && r.epoch == e)
  }

  /**
   * With every epoch listed once, the rows pruneHistory deletes are the
   * strategy's rows whose epoch is listed at a 1-based position divisible
   * by n; every other row survives.
   */
  lemma PruneByPosition(rows: seq<Record>, id: int, es: seq<int>, n: int, j: nat)
    requires EpochListing(es, rows, id) && n >= 2 && j < |es|
    ensures es[j] in PrunedEpochs(es, n, |es|) <==> (j + 1) % n == 0
  {
    PrunedEpochsAt(es, n, |es|, es[j]);
  }

  /**
   * pruneHistory's effect on one row: rows of other strategies survive,
   * and a row of the strategy survives exactly when its epoch is listed
   * at a 1-based position not divisible by n.
   */
  lemma PruneRow(rows: seq<Record>, id: int, es: seq<int>, n: int, r: Record)
    requires EpochListing(es, rows, id) && n >= 2 && r in rows
    ensures var kept := RemoveEpochs(rows, id, PrunedEpochs(es, n, |es|));
      && (r.strategyId != id ==> r in kept)
      && (r.strategyId == id ==>
            exists j :: 0 <= j < |es| && es[j] == r.epoch && (r in kept <==> (j + 1) % n != 0))
  {
    if r.strategyId == id {
      assert r.epoch in es;
      var j :| 0 <= j < |es| && es[j] == r.epoch;
      PruneByPosition(rows, id, es, n, j);
    }
  }

  /** Epochs 1..6 pruned with n = 2: epochs 2, 4 and 6 go, 1, 3 and 5 stay. */
  lemma PruneSixEpochs()
    ensures PrunedEpochs([1, 2, 3, 4, 5, 6], 2, 6) == {2, 4, 6}
  {
    var es := [1, 2, 3, 4, 5, 6];
    forall e
      ensures e in PrunedEpochs(es, 2, 6) <==> e in {2, 4, 6}
    {
      PrunedEpochsAt(es, 2, 6, e);
      if e in {2, 4, 6} {
        var j := e - 1;
        assert es[j] == e && (j + 1) % 2 == 0;
      }
    }
  }
}
