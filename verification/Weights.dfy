/** Checked sums of token weights (estimate_arithmetic.go). */
module Weights {
  import opened Results
  import opened Budgets

  /** The weight of everything from `i` on. */
  function Weight(weights: seq<int>, i: nat): int
    requires i <= |weights|
    decreases |weights| - i
  {
    if i == |weights| then 0 else weights[i] + Weight(weights, i + 1)
  }

  function Total(weights: seq<int>): int {
    Weight(weights, 0)
  }

  predicate NonNegative(weights: seq<int>) {
    forall i :: 0 <= i < |weights| ==> 0 <= weights[i]
  }

  lemma {:induction false} WeightFalls(weights: seq<int>, i: nat, j: nat)
    requires NonNegative(weights) && i <= j <= |weights|
    ensures 0 <= Weight(weights, j) <= Weight(weights, i)
    decreases |weights| - i
  {
    if i < j {
      WeightFalls(weights, i + 1, j);
    } else if i < |weights| {
      WeightFalls(weights, i + 1, i + 1);
    }
  }

  /** The checked sum: nothing when a weight is negative or the sum leaves the machine range. */
  method SumEstimateTokens(weights: seq<int>) returns (total: Option<int>)
    ensures total.Some? <==> NonNegative(weights) && Total(weights) <= MAX_INT
    ensures total.Some? ==> total.value == Total(weights)
  {
    var sum := 0;
    for i := 0 to |weights|
      invariant forall k :: 0 <= k < i ==> 0 <= weights[k]
      invariant 0 <= sum <= MAX_INT && sum + Weight(weights, i) == Total(weights)
    {
      if weights[i] < 0 || weights[i] > MAX_INT - sum {
        if NonNegative(weights) {
          WeightFalls(weights, i + 1, i + 1);
        }
        return None;
      }
      sum := sum + weights[i];
    }
    total := Some(sum);
  }

  lemma {:induction false} WeightSplits(a: seq<int>, b: seq<int>, i: nat)
    requires i <= |a|
    ensures Weight(a + b, i) == Weight(a, i) + Total(b)
    decreases |a| - i
  {
    if i < |a| {
      WeightSplits(a, b, i + 1);
    } else {
      WeightShifts(a, b, 0);
    }
  }

  lemma {:induction false} WeightShifts(a: seq<int>, b: seq<int>, i: nat)
    requires i <= |b|
    ensures Weight(a + b, |a| + i) == Weight(b, i)
    decreases |b| - i
  {
    if i < |b| {
      WeightShifts(a, b, i + 1);
    }
  }

  lemma {:induction false} TotalConcat(a: seq<int>, b: seq<int>)
    ensures Total(a + b) == Total(a) + Total(b)
  {
    WeightSplits(a, b, 0);
  }

  lemma {:induction false} TotalNext(a: seq<int>, x: int)
    ensures Total(a + [x]) == Total(a) + x
  {
    TotalConcat(a, [x]);
    assert Weight([x], 1) == 0;
  }

  lemma {:induction false} TotalPrefix(s: seq<int>, n: nat)
    requires NonNegative(s) && n <= |s|
    ensures 0 <= Total(s[..n]) <= Total(s)
  {
    assert s == s[..n] + s[n..];
    TotalConcat(s[..n], s[n..]);
    WeightFalls(s[..n], 0, n);
    WeightFalls(s[n..], 0, |s| - n);
  }
}
