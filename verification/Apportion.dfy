/**
 Spending a rate exactly: each window's budget from a running total that cannot drift, and the budget
 dealt over a window's ticks by largest remainder. Weights and rates are real numbers.
 */
module Apportion {

  const TICKS_PER_WINDOW: nat := 10
  const WINDOW_SECONDS: real := 10.0
  const U32_MAX: int := 0xffff_ffff

  // ---------------------------------------------------------------- sums

  function SumOf(counts: seq<nat>, n: nat): nat
    requires n <= |counts|
  {
    if n == 0 then 0 else SumOf(counts, n - 1) + counts[n - 1]
  }

  function RealSum(values: seq<real>, n: nat): real
    requires n <= |values|
  {
    if n == 0 then 0.0 else RealSum(values, n - 1) + values[n - 1]
  }

  lemma {:induction false} SumWithOneMore(counts: seq<nat>, i: nat, n: nat)
    requires i < |counts| && n <= |counts|
    ensures SumOf(counts[i := counts[i] + 1], n) == SumOf(counts, n) + if i < n then 1 else 0
  {
    if n > 0 { SumWithOneMore(counts, i, n - 1); }
  }

  // ---------------------------------------------------------------- shares

  function Fraction(v: real): (f: real)
    ensures 0.0 <= f < 1.0
  {
    v - v.Floor as real
  }

  function Shares(weights: seq<real>, total: real, budget: nat): (scaled: seq<real>)
    requires total > 0.0
    ensures |scaled| == |weights|
  {
    seq(|weights|, i requires 0 <= i < |weights| => weights[i] / total * budget as real)
  }

  ghost predicate AreWeights(weights: seq<real>) {
    (forall i :: 0 <= i < |weights| ==> weights[i] >= 0.0) && RealSum(weights, |weights|) > 0.0
  }

  lemma {:induction false} QuotientsAdd(a: real, b: real, t: real)
    requires t > 0.0
    ensures a / t + b / t == (a + b) / t
  {
  }

  lemma {:induction false} QuotientIsNonNegative(a: real, t: real, b: nat)
    requires t > 0.0 && a >= 0.0
    ensures a / t * b as real >= 0.0
  {
  }

  lemma {:induction false} SharesSum(weights: seq<real>, total: real, budget: nat, n: nat)
    requires total > 0.0 && n <= |weights|
    ensures RealSum(Shares(weights, total, budget), n) == RealSum(weights, n) / total * budget as real
  {
    if n > 0 {
      SharesSum(weights, total, budget, n - 1);
      QuotientsAdd(RealSum(weights, n - 1), weights[n - 1], total);
    }
  }

  /** The shares of a window add up to its budget. */
  lemma {:induction false} SharesSumToBudget(weights: seq<real>, budget: nat)
    requires AreWeights(weights)
    ensures RealSum(Shares(weights, RealSum(weights, |weights|), budget), |weights|) == budget as real
  {
    var total := RealSum(weights, |weights|);
    SharesSum(weights, total, budget, |weights|);
    assert total / total == 1.0;
  }

  function Floors(scaled: seq<real>): (counts: seq<nat>)
    requires forall i :: 0 <= i < |scaled| ==> scaled[i] >= 0.0
    ensures |counts| == |scaled|
  {
    seq(|scaled|, i requires 0 <= i < |scaled| => scaled[i].Floor)
  }

  /** Rounding every share down leaves something to hand out, but less than one for each share. */
  lemma {:induction false} FloorsFallShort(scaled: seq<real>, n: nat)
    requires n <= |scaled| && forall i :: 0 <= i < |scaled| ==> scaled[i] >= 0.0
    ensures SumOf(Floors(scaled), n) as real <= RealSum(scaled, n)
    ensures n > 0 ==> RealSum(scaled, n) < SumOf(Floors(scaled), n) as real + n as real
  {
    if n > 0 { FloorsFallShort(scaled, n - 1); }
  }

  // ---------------------------------------------------------------- largest remainder first

  /** `a` is served before `b`: a larger fraction, or the same one earlier in the window. */
  predicate Before(scaled: seq<real>, a: nat, b: nat)
    requires a < |scaled| && b < |scaled|
  {
    Fraction(scaled[a]) > Fraction(scaled[b]) || (Fraction(scaled[a]) == Fraction(scaled[b]) && a < b)
  }

  ghost predicate IsOrder(scaled: seq<real>, order: seq<nat>, n: nat) {
    && n <= |scaled| && |order| == n
    && (forall p :: 0 <= p < n ==> order[p] < n)
    && (forall p, q :: 0 <= p < q < n ==> Before(scaled, order[p], order[q]))
    && (forall i: nat :: i < n ==> i in order)
  }

  /** Where index `n` belongs among the first `n`, already in order. */
  function Place(scaled: seq<real>, order: seq<nat>, n: nat, p: nat := 0): (k: nat)
    requires IsOrder(scaled, order, n) && n < |scaled| && p <= n
    requires forall q :: 0 <= q < p ==> Before(scaled, order[q], n)
    ensures k <= n
    ensures forall q :: 0 <= q < k ==> Before(scaled, order[q], n)
    ensures k < n ==> !Before(scaled, order[k], n)
    decreases n - p
  {
    if p < n && Before(scaled, order[p], n) then Place(scaled, order, n, p + 1) else p
  }

  /** The ticks of a window by fraction, largest first, as a stable sort leaves them. */
  method SortByFraction(scaled: seq<real>) returns (order: seq<nat>)
    ensures IsOrder(scaled, order, |scaled|)
  {
    order := [];
    for n := 0 to |scaled|
      invariant IsOrder(scaled, order, n)
    {
      var k := Place(scaled, order, n);
      InsertKeepsOrder(scaled, order, n, k);
      order := order[..k] + [n] + order[k..];
    }
  }

  lemma {:induction false} InsertKeepsOrder(scaled: seq<real>, order: seq<nat>, n: nat, k: nat)
    requires IsOrder(scaled, order, n) && n < |scaled| && k <= n
    requires forall q :: 0 <= q < k ==> Before(scaled, order[q], n)
    requires k < n ==> !Before(scaled, order[k], n)
    ensures IsOrder(scaled, order[..k] + [n] + order[k..], n + 1)
  {
    var longer := order[..k] + [n] + order[k..];
    forall q | k <= q < n
      ensures Before(scaled, n, order[q])
    {
      assert q == k || Before(scaled, order[k], order[q]);
    }
    forall i: nat | i < n + 1
      ensures i in longer
    {
      if i == n {
        assert longer[k] == n;
      } else {
        assert i in order;
        var p :| 0 <= p < n && order[p] == i;
        assert longer[if p < k then p else p + 1] == i;
      }
    }
    forall p, q | 0 <= p < q < n + 1
      ensures Before(scaled, longer[p], longer[q])
    {
      if p == k {
        assert longer[q] == order[q - 1];
      } else if q == k {
        assert longer[p] == order[p];
      } else {
        assert longer[p] == order[if p < k then p else p - 1] && longer[q] == order[if q < k then q else q - 1];
      }
    }
  }

  // ---------------------------------------------------------------- one window

  /** Each count is its share rounded down, or that and one more. */
  predicate GotExtra(scaled: seq<real>, counts: seq<nat>, i: nat)
    requires |scaled| == |counts| && i < |counts|
  {
    counts[i] == scaled[i].Floor + 1
  }

  ghost predicate IsRounded(scaled: seq<real>, counts: seq<nat>) {
    && |counts| == |scaled|
    && (forall i :: 0 <= i < |counts| ==> counts[i] == scaled[i].Floor || GotExtra(scaled, counts, i))
    && (forall i, j ::
          0 <= i < |counts| && 0 <= j < |counts| && GotExtra(scaled, counts, i) && !GotExtra(scaled, counts, j) ==>
            Fraction(scaled[i]) > Fraction(scaled[j]) || (Fraction(scaled[i]) == Fraction(scaled[j]) && i < j))
  }

  /** With the first `p` of the order rounded up. */
  ghost predicate RoundedUpTo(scaled: seq<real>, order: seq<nat>, counts: seq<nat>, p: nat)
    requires IsOrder(scaled, order, |scaled|)
  {
    && |counts| == |scaled| && p <= |order|
    && forall q :: 0 <= q < |order| ==> counts[order[q]] == scaled[order[q]].Floor + if q < p then 1 else 0
  }

  lemma {:induction false} OneMoreExtra(scaled: seq<real>, order: seq<nat>, counts: seq<nat>, p: nat)
    requires IsOrder(scaled, order, |scaled|) && RoundedUpTo(scaled, order, counts, p) && p < |order|
    ensures RoundedUpTo(scaled, order, counts[order[p] := counts[order[p]] + 1], p + 1)
  {
    forall q | 0 <= q < |order| && q != p
      ensures order[q] != order[p]
    {
      assert if q < p then Before(scaled, order[q], order[p]) else Before(scaled, order[p], order[q]);
    }
  }

  /** Where an index stands in the order. */
  lemma {:induction false} Stands(scaled: seq<real>, order: seq<nat>, i: nat) returns (a: nat)
    requires IsOrder(scaled, order, |scaled|) && i < |scaled|
    ensures a < |order| && order[a] == i
  {
    assert i in order;
    a :| 0 <= a < |order| && order[a] == i;
  }

  lemma {:induction false} FrontIsRounded(scaled: seq<real>, order: seq<nat>, counts: seq<nat>, p: nat)
    requires IsOrder(scaled, order, |scaled|) && RoundedUpTo(scaled, order, counts, p)
    ensures IsRounded(scaled, counts)
  {
    forall i, j | 0 <= i < |counts| && 0 <= j < |counts| && GotExtra(scaled, counts, i) && !GotExtra(scaled, counts, j)
      ensures Before(scaled, i, j)
    {
      var a := Stands(scaled, order, i);
      var b := Stands(scaled, order, j);
      assert a < p <= b;
    }
    forall i | 0 <= i < |counts|
      ensures counts[i] == scaled[i].Floor || GotExtra(scaled, counts, i)
    {
      var a := Stands(scaled, order, i);
    }
  }

  /** The remainder handed out, one each, in order. */
  method HandOutExtras(scaled: seq<real>, order: seq<nat>, remainder: nat) returns (counts: seq<nat>)
    requires forall i :: 0 <= i < |scaled| ==> scaled[i] >= 0.0
    requires IsOrder(scaled, order, |scaled|) && remainder <= |scaled|
    ensures IsRounded(scaled, counts)
    ensures SumOf(counts, |counts|) == SumOf(Floors(scaled), |scaled|) + remainder
  {
    counts := Floors(scaled);
    var left := remainder;
    var p := 0;
    while p < |order| && left > 0
      invariant 0 <= p <= |order| && left == remainder - p
      invariant RoundedUpTo(scaled, order, counts, p)
      invariant SumOf(counts, |counts|) == SumOf(Floors(scaled), |scaled|) + p
    {
      OneMoreExtra(scaled, order, counts, p);
      SumWithOneMore(counts, order[p], |counts|);
      counts := counts[order[p] := counts[order[p]] + 1];
      left := left - 1;
      p := p + 1;
    }
    FrontIsRounded(scaled, order, counts, p);
  }

  /** The flat window of a run made boring on purpose: the first ticks take what does not divide. */
  function Flat(budget: nat): (counts: seq<nat>)
    ensures |counts| == TICKS_PER_WINDOW
  {
    seq(TICKS_PER_WINDOW, i => budget / TICKS_PER_WINDOW + if i < budget % TICKS_PER_WINDOW then 1 else 0)
  }

  lemma {:induction false} Times(n: nat, q: nat)
    ensures (n + 1) * q == n * q + q
  {
  }

  lemma {:induction false} FlatSum(budget: nat, q: nat, r: nat, n: nat)
    requires n <= TICKS_PER_WINDOW && q == budget / TICKS_PER_WINDOW && r == budget % TICKS_PER_WINDOW
    ensures SumOf(Flat(budget), n) == n * q + if n < r then n else r
  {
    if n > 0 {
      FlatSum(budget, q, r, n - 1);
      Times(n - 1, q);
      assert Flat(budget)[n - 1] == q + if n - 1 < r then 1 else 0;
    }
  }

  /**
   `plan_window`: one window's budget dealt over its ticks. It is spent exactly; each tick gets within
   one of its share; and the ticks rounded up are those with the largest fractions.
   */
  method PlanWindow(budget: nat, jitter: real, weights: seq<real>) returns (counts: seq<nat>)
    requires |weights| == TICKS_PER_WINDOW && AreWeights(weights)
    ensures |counts| == 10 && SumOf(counts, |counts|) == budget
    ensures jitter <= 0.0 ==> forall i, j :: 0 <= i < j < |counts| ==> counts[j] <= counts[i] <= counts[j] + 1
    ensures jitter > 0.0 && budget > 0 ==>
              IsRounded(Shares(weights, RealSum(weights, |weights|), budget), counts)
  {
    if jitter <= 0.0 || budget == 0 {
      FlatSum(budget, budget / TICKS_PER_WINDOW, budget % TICKS_PER_WINDOW, TICKS_PER_WINDOW);
      return Flat(budget);
    }
    var total := RealSum(weights, |weights|);
    var scaled := Shares(weights, total, budget);
    forall i | 0 <= i < |scaled| ensures scaled[i] >= 0.0 {
      QuotientIsNonNegative(weights[i], total, budget);
    }
    SharesSumToBudget(weights, budget);
    FloorsFallShort(scaled, |scaled|);
    var remainder := budget - SumOf(Floors(scaled), |scaled|);
    var order := SortByFraction(scaled);
    counts := HandOutExtras(scaled, order, remainder);
  }

  /** What rounding means for one tick: less than one away from its exact share. */
  lemma {:induction false} RoundedIsWithinOne(scaled: seq<real>, counts: seq<nat>, i: nat)
    requires IsRounded(scaled, counts) && i < |counts|
    requires SumOf(counts, |counts|) as real == RealSum(scaled, |scaled|)
    ensures -1.0 < counts[i] as real - scaled[i] < 1.0
  {
    if GotExtra(scaled, counts, i) && Fraction(scaled[i]) == 0.0 {
      forall j | 0 <= j < |counts|
        ensures counts[j] as real >= scaled[j]
      {
        if !GotExtra(scaled, counts, j) { assert Before(scaled, i, j); }
      }
      TooMuch(scaled, counts, |counts|, i);
      assert false;
    }
  }

  /** Counts nowhere below their shares and somewhere above add up to more. */
  lemma {:induction false} TooMuch(scaled: seq<real>, counts: seq<nat>, n: nat, i: nat)
    requires |scaled| == |counts| && n <= |counts| && i < |counts| && counts[i] as real > scaled[i]
    requires forall j :: 0 <= j < |counts| ==> counts[j] as real >= scaled[j]
    ensures SumOf(counts, n) as real >= RealSum(scaled, n)
    ensures i < n ==> SumOf(counts, n) as real > RealSum(scaled, n)
  {
    if n > 0 { TooMuch(scaled, counts, n - 1, i); }
  }

  // ---------------------------------------------------------------- across windows

  /** A conversion to 32 bits that saturates at both ends. */
  function Saturated(n: int): (m: nat)
    ensures m <= U32_MAX
  {
    if n < 0 then 0 else if n > U32_MAX then U32_MAX else n
  }

  /** How many checks a rate owes by the end of a number of windows. */
  function Due(rate: real, windows: nat): nat {
    Saturated(((if rate > 0.0 then rate else 0.0) * WINDOW_SECONDS * windows as real).Floor)
  }

  lemma {:induction false} Grows(r: real, a: real, b: real)
    requires r >= 0.0 && a <= b
    ensures r * a <= r * b
  {
  }

  lemma {:induction false} DueGrows(rate: real, a: nat, b: nat)
    requires a <= b
    ensures Due(rate, a) <= Due(rate, b)
  {
    Grows((if rate > 0.0 then rate else 0.0) * WINDOW_SECONDS, a as real, b as real);
  }

  class Pace {
    var windows: nat
    var granted: nat

    constructor ()
      ensures windows == 0 && granted == 0
    {
      windows, granted := 0, 0;
    }

    /** `window_budget`: what is owed by now less what has been handed out, never less than nothing. */
    method WindowBudget(rate: real) returns (budget: nat)
      modifies this
      ensures windows == old(windows) + 1
      ensures granted == old(granted) + budget
      ensures granted == if Due(rate, windows) < old(granted) then old(granted) else Due(rate, windows)
    {
      windows := windows + 1;
      var due := Due(rate, windows);
      budget := if due < granted then 0 else due - granted;
      granted := granted + budget;
    }
  }

  /** By the end of the first `k` windows, exactly what was due has been granted. */
  ghost predicate GrantedBy(rate: real, budgets: seq<nat>, k: nat)
    requires k <= |budgets|
  {
    SumOf(budgets, k) == Due(rate, k)
  }

  /** After each of these windows, exactly what was due has been granted. */
  ghost predicate GrantedOnTime(rate: real, budgets: seq<nat>) {
    forall k :: 0 <= k <= |budgets| ==> GrantedBy(rate, budgets, k)
  }

  lemma {:induction false} OneMoreWindow(rate: real, budgets: seq<nat>, budget: nat)
    requires GrantedOnTime(rate, budgets) && Due(rate, |budgets|) + budget == Due(rate, |budgets| + 1)
    ensures GrantedOnTime(rate, budgets + [budget])
  {
    var longer := budgets + [budget];
    assert GrantedBy(rate, budgets, |budgets|);
    forall k | 0 <= k <= |longer| ensures GrantedBy(rate, longer, k) {
      SumOfPrefix(budgets, longer, if k <= |budgets| then k else |budgets|);
      assert k <= |budgets| ==> GrantedBy(rate, budgets, k);
    }
  }

  /** A run of windows at one rate. */
  method GrantWindows(rate: real, n: nat) returns (budgets: seq<nat>)
    ensures |budgets| == n && GrantedOnTime(rate, budgets)
  {
    var pace := new Pace();
    budgets := [];
    while pace.windows < n
      invariant pace.windows == |budgets| <= n && pace.granted == Due(rate, |budgets|)
      invariant GrantedOnTime(rate, budgets)
      decreases n - pace.windows
    {
      DueGrows(rate, pace.windows, pace.windows + 1);
      var budget := pace.WindowBudget(rate);
      OneMoreWindow(rate, budgets, budget);
      budgets := budgets + [budget];
    }
  }

  lemma {:induction false} SumOfPrefix(a: seq<nat>, b: seq<nat>, n: nat)
    requires n <= |a| <= |b| && forall i :: 0 <= i < n ==> a[i] == b[i]
    ensures SumOf(a, n) == SumOf(b, n)
  {
    if n > 0 { SumOfPrefix(a, b, n - 1); }
  }

  /** Any stretch of windows grants within one check of its exact share, as long as the total fits 32 bits. */
  lemma {:induction false} StretchIsWithinOne(rate: real, from: nat, m: nat)
    requires rate >= 0.0 && rate * 10.0 * (from + m) as real <= 4294967295.0
    ensures -1.0 < (Due(rate, from + m) - Due(rate, from)) as real - rate * 10.0 * m as real < 1.0
  {
    var r := rate * WINDOW_SECONDS;
    assert r * (from + m) as real == r * from as real + r * m as real;
    assert 0.0 <= r * from as real;
    assert 0.0 <= r * m as real;
  }
}
