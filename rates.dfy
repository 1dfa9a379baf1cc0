/** The two recognition rates ConfusionMatrixLayer::Print reports, computed
    from the accumulators over real numbers. Neither division is guarded, so
    a zero divisor yields what long double division yields: an infinity or
    not-a-number. */
module Rates {
  import opened Confusion

  /** A quotient as floating-point division delivers it. */
  datatype Quotient = Finite(value: real) | NaN | PosInfinity | NegInfinity

  function Divide(a: real, b: real): (q: Quotient)
    ensures q.Finite? <==> b != 0.0
    ensures q.Finite? ==> q.value == a / b
    ensures q == NaN <==> a == 0.0 && b == 0.0
  {
    if b != 0.0 then Finite(a / b)
    else if a > 0.0 then PosInfinity
    else if a < 0.0 then NegInfinity
    else NaN
  }

  /** "Overall recognition rate (not normalized)": 100 * right / total. */
  function UnnormalizedRate(st: Stats): Quotient {
    Divide(100.0 * st.right, st.total)
  }

  /** The sum, over the first k classes with a positive per-class total, of
      the diagonal cell divided by that total. */
  function RatioSum(st: Stats, n: nat, k: nat): real
    requires Sized(st, n) && k <= n
  {
    if k == 0 then 0.0
    else RatioSum(st, n, k - 1)
         + (if st.perClass[k - 1] > 0.0 then Cell(st.matrix, n, k - 1, k - 1) / st.perClass[k - 1] else 0.0)
  }

  /** The number of the first k classes with a positive per-class total. */
  function ClassCount(perClass: seq<real>, k: nat): real
    requires k <= |perClass|
  {
    if k == 0 then 0.0
    else ClassCount(perClass, k - 1) + (if perClass[k - 1] > 0.0 then 1.0 else 0.0)
  }

  /** "Average recognition rate (normalized)": 100 times the mean ratio. */
  function NormalizedRate(st: Stats, n: nat): Quotient
    requires Sized(st, n)
  {
    Divide(100.0 * RatioSum(st, n, n), ClassCount(st.perClass, n))
  }

  // ---------------------------------------------------------------------

  lemma QuotientBounds(a: real, bound: real, b: real)
    requires 0.0 < b && 0.0 <= a <= bound && bound == 100.0 * b
    ensures 0.0 <= a / b <= 100.0
  {
    assert a / b <= bound / b;
  }

  /** With non-negative cells a diagonal cell never exceeds its column. */
  lemma {:induction false} CellBelowColumn(m: seq<real>, n: nat, t: nat, k: nat, p: nat)
    requires |m| == n * n && t < n && k <= n && p < k
    requires forall i :: 0 <= i < |m| ==> 0.0 <= m[i]
    ensures Cell(m, n, p, t) <= ColumnSum(m, n, t, k)
    ensures 0.0 <= ColumnSum(m, n, t, k)
  {
    CellIndexBound(n, k - 1, t);
    if p < k - 1 {
      CellBelowColumn(m, n, t, k - 1, p);
    } else if k - 1 > 0 {
      CellBelowColumn(m, n, t, k - 1, 0);
    }
  }

  /** The diagonal never exceeds the per-class totals it lies in. */
  lemma {:induction false} TraceBelowPerClass(st: Stats, n: nat, k: nat)
    requires Invariant(st, n) && NonNegative(st) && k <= n
    ensures Trace(st.matrix, n, k) <= Sum(st.perClass[..k])
  {
    if k > 0 {
      TraceBelowPerClass(st, n, k - 1);
      CellBelowColumn(st.matrix, n, k - 1, n, k - 1);
      assert st.perClass[..k][..k - 1] == st.perClass[..k - 1];
    }
  }

  /** With a positive total and non-negative weights, the unnormalized rate
      is a percentage. */
  lemma UnnormalizedRateBounds(st: Stats, n: nat)
    requires Invariant(st, n) && NonNegative(st) && st.total > 0.0
    ensures UnnormalizedRate(st).Finite?
    ensures 0.0 <= UnnormalizedRate(st).value <= 100.0
  {
    TraceBelowPerClass(st, n, n);
    assert st.perClass[..n] == st.perClass;
    assert 0.0 <= st.right <= st.total;
    QuotientBounds(100.0 * st.right, 100.0 * st.total, st.total);
  }

  /** Every prediction right and some weight seen: the rate is 100%. */
  lemma PerfectUnnormalizedRate(st: Stats)
    requires st.right == st.total && st.total != 0.0
    ensures UnnormalizedRate(st) == Finite(100.0)
  {
    assert UnnormalizedRate(st) == Divide(100.0 * st.total, st.total);
    assert (100.0 * st.total) / st.total == 100.0 * (st.total / st.total);
  }

  lemma {:induction false} RatioSumBounds(st: Stats, n: nat, k: nat)
    requires Invariant(st, n) && NonNegative(st) && k <= n
    ensures 0.0 <= RatioSum(st, n, k) <= ClassCount(st.perClass, k)
  {
    if k > 0 {
      RatioSumBounds(st, n, k - 1);
      var c := k - 1;
      if st.perClass[c] > 0.0 {
        CellBelowColumn(st.matrix, n, c, n, c);
        CellIndexBound(n, c, c);
        var d := Cell(st.matrix, n, c, c);
        assert 0.0 <= d <= st.perClass[c];
        assert d / st.perClass[c] <= 1.0;
      }
    }
  }

  lemma {:induction false} ClassCountPositive(perClass: seq<real>, k: nat, c: nat)
    requires k <= |perClass| && c < k && perClass[c] > 0.0
    ensures ClassCount(perClass, k) >= 1.0
  {
    if c < k - 1 {
      ClassCountPositive(perClass, k - 1, c);
    }
    ClassCountNonNegative(perClass, k - 1);
  }

  lemma {:induction false} ClassCountNonNegative(perClass: seq<real>, k: nat)
    requires k <= |perClass|
    ensures ClassCount(perClass, k) >= 0.0
  {
    if k > 0 {
      ClassCountNonNegative(perClass, k - 1);
    }
  }

  /** When some class has a positive total, the normalized rate is a
      percentage. */
  lemma NormalizedRateBounds(st: Stats, n: nat, c: nat)
    requires Invariant(st, n) && NonNegative(st) && c < n && st.perClass[c] > 0.0
    ensures NormalizedRate(st, n).Finite?
    ensures 0.0 <= NormalizedRate(st, n).value <= 100.0
  {
    RatioSumBounds(st, n, n);
    ClassCountPositive(st.perClass, n, c);
    QuotientBounds(100.0 * RatioSum(st, n, n), 100.0 * ClassCount(st.perClass, n), ClassCount(st.perClass, n));
  }

  lemma {:induction false} NoPositiveClass(st: Stats, n: nat, k: nat)
    requires Sized(st, n) && k <= n
    requires forall c :: 0 <= c < n ==> st.perClass[c] <= 0.0
    ensures RatioSum(st, n, k) == 0.0 && ClassCount(st.perClass, k) == 0.0
  {
    if k > 0 {
      NoPositiveClass(st, n, k - 1);
    }
  }

  /** Without a class of positive total the normalized rate is not a
      number: the source divides zero by zero. */
  lemma NormalizedRateUnguarded(st: Stats, n: nat)
    requires Sized(st, n)
    requires forall c :: 0 <= c < n ==> st.perClass[c] <= 0.0
    ensures NormalizedRate(st, n) == NaN
  {
    NoPositiveClass(st, n, n);
  }
}
