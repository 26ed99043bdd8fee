/** Sums over coin lists: prefixes, arbitrary subsets, and why largest-first prefixes are best. */
module CoinSums {

  function Sum(values: seq<int>): int
  {
    if values == [] then 0 else Sum(values[..|values| - 1]) + values[|values| - 1]
  }

  /** The total of the first n values. */
  function Prefix(values: seq<int>, n: nat): int
    requires n <= |values|
  {
    Sum(values[..n])
  }

  lemma PrefixStep(values: seq<int>, n: nat)
    requires n < |values|
    ensures Prefix(values, n + 1) == Prefix(values, n) + values[n]
  {
    assert values[..n + 1][..n] == values[..n];
  }

  lemma {:induction false} PrefixMonotone(values: seq<int>, m: nat, n: nat)
    requires m <= n <= |values|
    requires forall i | 0 <= i < |values| :: values[i] >= 0
    ensures Prefix(values, m) <= Prefix(values, n)
    decreases n - m
  {
    if m < n {
      PrefixStep(values, m);
      PrefixMonotone(values, m + 1, n);
    }
  }

  lemma {:induction false} SumAppend(a: seq<int>, b: seq<int>)
    ensures Sum(a + b) == Sum(a) + Sum(b)
  {
    if b == [] {
      assert a + b == a;
    } else {
      assert (a + b)[..|a + b| - 1] == a + b[..|b| - 1];
      SumAppend(a, b[..|b| - 1]);
    }
  }

  ghost predicate Descending(values: seq<int>)
  {
    forall i, j | 0 <= i < j < |values| :: values[i] >= values[j]
  }

  /** The total of the values whose index is chosen, taken over the first n indices. */
  ghost function Chosen(values: seq<int>, picks: set<nat>, n: nat): int
    requires n <= |values|
  {
    if n == 0 then 0 else Chosen(values, picks, n - 1) + if n - 1 in picks then values[n - 1] else 0
  }

  ghost function Below(picks: set<nat>, n: nat): set<nat> { set i | i in picks && i < n }

  lemma BelowStep(picks: set<nat>, n: nat)
    ensures Below(picks, n + 1) == Below(picks, n) + if n in picks then {n} else {}
    ensures |Below(picks, n + 1)| == |Below(picks, n)| + if n in picks then 1 else 0
  {
  }

  lemma {:induction false} BelowBound(picks: set<nat>, n: nat)
    ensures |Below(picks, n)| <= n
  {
    if n > 0 {
      BelowBound(picks, n - 1);
      BelowStep(picks, n - 1);
    }
  }

  /** No k coins of a descending list are worth more than its first k. */
  lemma {:induction false} LargestFirstIsBest(values: seq<int>, picks: set<nat>, n: nat)
    requires Descending(values) && n <= |values|
    ensures |Below(picks, n)| <= n
    ensures Chosen(values, picks, n) <= Prefix(values, |Below(picks, n)|)
  {
    if n > 0 {
      LargestFirstIsBest(values, picks, n - 1);
      BelowStep(picks, n - 1);
      if n - 1 in picks {
        PrefixStep(values, |Below(picks, n - 1)|);
      }
    } else {
      assert Below(picks, 0) == {};
    }
  }
}
