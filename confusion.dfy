/** The accumulators of ConfusionMatrixLayer as values: what Reset sets them
    to, what one sample of FeedForward adds, and the invariants that link the
    matrix, the per-class totals, the grand total and the correct total. */
module Confusion {
  import Arith

  /** matrix is the flattened classes x classes matrix, the weight of the
      samples predicted as p with true class t at p * classes + t; perClass
      holds the weight per true class, total all weight and right the weight
      of the correctly predicted samples. */
  datatype Stats = Stats(matrix: seq<real>, perClass: seq<real>, total: real, right: real)

  predicate Sized(st: Stats, n: nat) {
    |st.matrix| == n * n && |st.perClass| == n
  }

  predicate AllBelow(s: seq<nat>, n: nat) {
    forall i :: 0 <= i < |s| ==> s[i] < n
  }

  lemma CellIndexBound(n: nat, p: nat, t: nat)
    requires p < n && t < n
    ensures 0 <= p * n + t < n * n
  {
    Arith.DigitBound(p, t, n, n);
  }

  /** Two cell positions are the same exactly when their coordinates are. */
  lemma CellIndexUnique(n: nat, p: nat, t: nat, p': nat, t': nat)
    requires p < n && t < n && p' < n && t' < n
    ensures p * n + t == p' * n + t' <==> p == p' && t == t'
  {
    if p * n + t == p' * n + t' {
      Arith.DigitUnique(p, t, p', t', n);
    }
  }

  /** The cell in row p (predicted class) and column t (true class). */
  function Cell(m: seq<real>, n: nat, p: nat, t: nat): real
    requires |m| == n * n && p < n && t < n
  {
    CellIndexBound(n, p, t);
    m[p * n + t]
  }

  function Sum(s: seq<real>): real {
    if |s| == 0 then 0.0 else Sum(s[..|s| - 1]) + s[|s| - 1]
  }

  /** The sum of the first k diagonal cells. */
  function Trace(m: seq<real>, n: nat, k: nat): real
    requires |m| == n * n && k <= n
  {
    if k == 0 then 0.0 else Trace(m, n, k - 1) + Cell(m, n, k - 1, k - 1)
  }

  /** The sum of column t over the first k rows. */
  function ColumnSum(m: seq<real>, n: nat, t: nat, k: nat): real
    requires |m| == n * n && t < n && k <= n
  {
    if k == 0 then 0.0 else ColumnSum(m, n, t, k - 1) + Cell(m, n, k - 1, t)
  }

  /** What Reset establishes and FeedForward keeps: the grand total is the
      sum of the per-class totals and of all cells, the correct total is the
      sum of the diagonal, and each per-class total is its column's sum. */
  predicate Invariant(st: Stats, n: nat) {
    && Sized(st, n)
    && st.total == Sum(st.perClass)
    && st.total == Sum(st.matrix)
    && st.right == Trace(st.matrix, n, n)
    && forall t :: 0 <= t < n ==> st.perClass[t] == ColumnSum(st.matrix, n, t, n)
  }

  /** No accumulator is negative. */
  predicate NonNegative(st: Stats) {
    && (forall i :: 0 <= i < |st.matrix| ==> 0.0 <= st.matrix[i])
    && (forall i :: 0 <= i < |st.perClass| ==> 0.0 <= st.perClass[i])
    && 0.0 <= st.right && 0.0 <= st.total
  }

  /** The state Reset leaves behind. */
  function Zero(n: nat): (st: Stats)
    ensures Sized(st, n)
  {
    Stats(seq(n * n, _ => 0.0), seq(n, _ => 0.0), 0.0, 0.0)
  }

  /** One sample of FeedForward: its weight goes to cell (pred, truth), to
      the truth's per-class total and to the grand total, and to the correct
      total when the prediction is right. */
  function Record(st: Stats, n: nat, pred: nat, truth: nat, w: real): (r: Stats)
    requires Sized(st, n) && pred < n && truth < n
    ensures Sized(r, n)
  {
    CellIndexBound(n, pred, truth);
    var i := pred * n + truth;
    Stats(st.matrix[i := st.matrix[i] + w],
          st.perClass[truth := st.perClass[truth] + w],
          st.total + w,
          if pred == truth then st.right + w else st.right)
  }

  /** A batch of samples, recorded in order. */
  function Fold(st: Stats, n: nat, preds: seq<nat>, labels: seq<nat>, weights: seq<real>): (r: Stats)
    requires Sized(st, n) && |preds| == |labels| == |weights|
    requires AllBelow(preds, n) && AllBelow(labels, n)
    ensures Sized(r, n)
    decreases |preds|
  {
    if |preds| == 0 then st
    else
      var k := |preds| - 1;
      Record(Fold(st, n, preds[..k], labels[..k], weights[..k]), n, preds[k], labels[k], weights[k])
  }

  // ---------------------------------------------------------------------
  // Independent accounts of what a batch adds

  /** The weight of the samples whose prediction is right. */
  function Matched(preds: seq<nat>, labels: seq<nat>, weights: seq<real>): real
    requires |preds| == |labels| == |weights|
  {
    if |preds| == 0 then 0.0
    else
      var k := |preds| - 1;
      Matched(preds[..k], labels[..k], weights[..k]) + (if preds[k] == labels[k] then weights[k] else 0.0)
  }

  /** The weight of the samples predicted as p with true class t. */
  function PairWeight(preds: seq<nat>, labels: seq<nat>, weights: seq<real>, p: nat, t: nat): real
    requires |preds| == |labels| == |weights|
  {
    if |preds| == 0 then 0.0
    else
      var k := |preds| - 1;
      PairWeight(preds[..k], labels[..k], weights[..k], p, t) + (if preds[k] == p && labels[k] == t then weights[k] else 0.0)
  }

  /** The weight of the samples of true class t. */
  function ClassWeight(labels: seq<nat>, weights: seq<real>, t: nat): real
    requires |labels| == |weights|
  {
    if |labels| == 0 then 0.0
    else
      var k := |labels| - 1;
      ClassWeight(labels[..k], weights[..k], t) + (if labels[k] == t then weights[k] else 0.0)
  }

  // ---------------------------------------------------------------------
  // Sums under a single update

  lemma {:induction false} SumUpdate(s: seq<real>, i: nat, w: real)
    requires i < |s|
    ensures Sum(s[i := s[i] + w]) == Sum(s) + w
  {
    var s' := s[i := s[i] + w];
    var k := |s| - 1;
    if i == k {
      assert s'[..k] == s[..k];
    } else {
      assert s'[..k] == s[..k][i := s[..k][i] + w];
      SumUpdate(s[..k], i, w);
    }
  }

  lemma {:induction false} SumOfZeros(s: seq<real>)
    requires forall i :: 0 <= i < |s| ==> s[i] == 0.0
    ensures Sum(s) == 0.0
  {
    if |s| > 0 {
      SumOfZeros(s[..|s| - 1]);
    }
  }

  lemma {:induction false} TraceUpdate(m: seq<real>, n: nat, k: nat, p: nat, t: nat, w: real)
    requires |m| == n * n && k <= n && p < n && t < n
    ensures p * n + t < |m|
    ensures Trace(m[p * n + t := m[p * n + t] + w], n, k) == Trace(m, n, k) + (if p == t && p < k then w else 0.0)
  {
    CellIndexBound(n, p, t);
    if k > 0 {
      TraceUpdate(m, n, k - 1, p, t, w);
      CellIndexBound(n, k - 1, k - 1);
      CellIndexUnique(n, k - 1, k - 1, p, t);
    }
  }

  lemma {:induction false} ColumnUpdate(m: seq<real>, n: nat, c: nat, k: nat, p: nat, t: nat, w: real)
    requires |m| == n * n && c < n && k <= n && p < n && t < n
    ensures p * n + t < |m|
    ensures ColumnSum(m[p * n + t := m[p * n + t] + w], n, c, k) == ColumnSum(m, n, c, k) + (if c == t && p < k then w else 0.0)
  {
    CellIndexBound(n, p, t);
    if k > 0 {
      ColumnUpdate(m, n, c, k - 1, p, t, w);
      CellIndexBound(n, k - 1, c);
      CellIndexUnique(n, k - 1, c, p, t);
    }
  }

  lemma {:induction false} TraceOfZeros(m: seq<real>, n: nat, k: nat)
    requires |m| == n * n && k <= n
    requires forall i :: 0 <= i < |m| ==> m[i] == 0.0
    ensures Trace(m, n, k) == 0.0
  {
    if k > 0 {
      TraceOfZeros(m, n, k - 1);
      CellIndexBound(n, k - 1, k - 1);
    }
  }

  lemma {:induction false} ColumnOfZeros(m: seq<real>, n: nat, t: nat, k: nat)
    requires |m| == n * n && t < n && k <= n
    requires forall i :: 0 <= i < |m| ==> m[i] == 0.0
    ensures ColumnSum(m, n, t, k) == 0.0
  {
    if k > 0 {
      ColumnOfZeros(m, n, t, k - 1);
      CellIndexBound(n, k - 1, t);
    }
  }

  // ---------------------------------------------------------------------
  // The invariants

  /** Reset establishes the invariants, and every accumulator is zero. */
  lemma ZeroInvariant(n: nat)
    ensures Invariant(Zero(n), n) && NonNegative(Zero(n))
    ensures forall i :: 0 <= i < |Zero(n).matrix| ==> Zero(n).matrix[i] == 0.0
    ensures forall i :: 0 <= i < |Zero(n).perClass| ==> Zero(n).perClass[i] == 0.0
    ensures Zero(n).total == 0.0 && Zero(n).right == 0.0
  {
    var z := Zero(n);
    SumOfZeros(z.matrix);
    SumOfZeros(z.perClass);
    TraceOfZeros(z.matrix, n, n);
    forall t | 0 <= t < n
      ensures z.perClass[t] == ColumnSum(z.matrix, n, t, n)
    {
      ColumnOfZeros(z.matrix, n, t, n);
    }
  }

  /** One sample changes cell (pred, truth) by its weight and no other cell. */
  lemma RecordCell(st: Stats, n: nat, pred: nat, truth: nat, w: real, p: nat, t: nat)
    requires Sized(st, n) && pred < n && truth < n && p < n && t < n
    ensures Cell(Record(st, n, pred, truth, w).matrix, n, p, t)
         == Cell(st.matrix, n, p, t) + (if p == pred && t == truth then w else 0.0)
  {
    CellIndexBound(n, p, t);
    CellIndexBound(n, pred, truth);
    CellIndexUnique(n, p, t, pred, truth);
  }

  /** One sample keeps the invariants. */
  lemma RecordKeepsInvariant(st: Stats, n: nat, pred: nat, truth: nat, w: real)
    requires Invariant(st, n) && pred < n && truth < n
    ensures Invariant(Record(st, n, pred, truth, w), n)
  {
    CellIndexBound(n, pred, truth);
    var i: nat := pred * n + truth;
    var r := Record(st, n, pred, truth, w);
    assert r.matrix == st.matrix[i := st.matrix[i] + w];
    assert r.perClass == st.perClass[truth := st.perClass[truth] + w];
    SumUpdate(st.perClass, truth, w);
    SumUpdate(st.matrix, i, w);
    TraceUpdate(st.matrix, n, n, pred, truth, w);
    RecordKeepsColumns(st, n, pred, truth, w);
  }

  /** One sample keeps each per-class total the sum of its column. */
  lemma RecordKeepsColumns(st: Stats, n: nat, pred: nat, truth: nat, w: real)
    requires Invariant(st, n) && pred < n && truth < n
    ensures forall t :: 0 <= t < n ==>
      Record(st, n, pred, truth, w).perClass[t] == ColumnSum(Record(st, n, pred, truth, w).matrix, n, t, n)
  {
    var r := Record(st, n, pred, truth, w);
    forall t | 0 <= t < n
      ensures r.perClass[t] == ColumnSum(r.matrix, n, t, n)
    {
      ColumnUpdate(st.matrix, n, t, n, pred, truth, w);
    }
  }

  /** Folding one more sample of a batch records it on top of the samples
      before it. */
  lemma FoldStep(st: Stats, n: nat, preds: seq<nat>, labels: seq<nat>, weights: seq<real>, pred: nat)
    requires Sized(st, n) && |preds| < |labels| == |weights|
    requires AllBelow(preds, n) && AllBelow(labels, n) && pred < n
    ensures AllBelow(preds + [pred], n)
    ensures Fold(st, n, preds + [pred], labels[..|preds| + 1], weights[..|preds| + 1])
         == Record(Fold(st, n, preds, labels[..|preds|], weights[..|preds|]), n, pred, labels[|preds|], weights[|preds|])
  {
    var k := |preds|;
    assert (preds + [pred])[..k] == preds;
    assert labels[..k + 1][..k] == labels[..k];
    assert weights[..k + 1][..k] == weights[..k];
  }

  /** Any batch keeps the invariants. */
  lemma {:induction false} FoldKeepsInvariant(st: Stats, n: nat, preds: seq<nat>, labels: seq<nat>, weights: seq<real>)
    requires Invariant(st, n) && |preds| == |labels| == |weights|
    requires AllBelow(preds, n) && AllBelow(labels, n)
    ensures Invariant(Fold(st, n, preds, labels, weights), n)
    decreases |preds|
  {
    if |preds| > 0 {
      var k := |preds| - 1;
      FoldKeepsInvariant(st, n, preds[..k], labels[..k], weights[..k]);
      RecordKeepsInvariant(Fold(st, n, preds[..k], labels[..k], weights[..k]), n, preds[k], labels[k], weights[k]);
    }
  }

  /** A batch of non-negative weights keeps every accumulator non-negative. */
  lemma {:induction false} FoldKeepsNonNegative(st: Stats, n: nat, preds: seq<nat>, labels: seq<nat>, weights: seq<real>)
    requires Sized(st, n) && NonNegative(st) && |preds| == |labels| == |weights|
    requires AllBelow(preds, n) && AllBelow(labels, n)
    requires forall i :: 0 <= i < |weights| ==> 0.0 <= weights[i]
    ensures NonNegative(Fold(st, n, preds, labels, weights))
    decreases |preds|
  {
    if |preds| > 0 {
      var k := |preds| - 1;
      FoldKeepsNonNegative(st, n, preds[..k], labels[..k], weights[..k]);
      CellIndexBound(n, preds[k], labels[k]);
    }
  }

  // ---------------------------------------------------------------------
  // What a batch adds, accumulator by accumulator

  /** The grand total grows by the batch's weight. */
  lemma {:induction false} FoldTotal(st: Stats, n: nat, preds: seq<nat>, labels: seq<nat>, weights: seq<real>)
    requires Sized(st, n) && |preds| == |labels| == |weights|
    requires AllBelow(preds, n) && AllBelow(labels, n)
    ensures Fold(st, n, preds, labels, weights).total == st.total + Sum(weights)
    decreases |preds|
  {
    if |preds| > 0 {
      var k := |preds| - 1;
      FoldTotal(st, n, preds[..k], labels[..k], weights[..k]);
    }
  }

  /** The correct total grows by the weight of the right predictions. */
  lemma {:induction false} FoldRight(st: Stats, n: nat, preds: seq<nat>, labels: seq<nat>, weights: seq<real>)
    requires Sized(st, n) && |preds| == |labels| == |weights|
    requires AllBelow(preds, n) && AllBelow(labels, n)
    ensures Fold(st, n, preds, labels, weights).right == st.right + Matched(preds, labels, weights)
    decreases |preds|
  {
    if |preds| > 0 {
      var k := |preds| - 1;
      FoldRight(st, n, preds[..k], labels[..k], weights[..k]);
    }
  }

  /** Each cell grows by exactly the weight of the samples predicted as its
      row with its column as true class; cells no sample hits keep their
      value. */
  lemma {:induction false} FoldCell(st: Stats, n: nat, preds: seq<nat>, labels: seq<nat>, weights: seq<real>, p: nat, t: nat)
    requires Sized(st, n) && |preds| == |labels| == |weights|
    requires AllBelow(preds, n) && AllBelow(labels, n) && p < n && t < n
    ensures Cell(Fold(st, n, preds, labels, weights).matrix, n, p, t)
         == Cell(st.matrix, n, p, t) + PairWeight(preds, labels, weights, p, t)
    decreases |preds|
  {
    if |preds| > 0 {
      var k := |preds| - 1;
      FoldCell(st, n, preds[..k], labels[..k], weights[..k], p, t);
      RecordCell(Fold(st, n, preds[..k], labels[..k], weights[..k]), n, preds[k], labels[k], weights[k], p, t);
    }
  }

  /** Each per-class total grows by the weight of the samples of that class. */
  lemma {:induction false} FoldPerClass(st: Stats, n: nat, preds: seq<nat>, labels: seq<nat>, weights: seq<real>, t: nat)
    requires Sized(st, n) && |preds| == |labels| == |weights|
    requires AllBelow(preds, n) && AllBelow(labels, n) && t < n
    ensures Fold(st, n, preds, labels, weights).perClass[t] == st.perClass[t] + ClassWeight(labels, weights, t)
    decreases |preds|
  {
    if |preds| > 0 {
      var k := |preds| - 1;
      FoldPerClass(st, n, preds[..k], labels[..k], weights[..k], t);
    }
  }
}
