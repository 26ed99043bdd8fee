/**
 * Choosing the on-chain coins that fund a splice: the search for the largest
 * amount and the selection loop that must agree with it.
 */
module SpliceSelection {
  import opened Results
  import opened Arithmetic
  import opened CoinSums

  const MAX_FEE_SATS := 50_000
  const ANCHOR_RESERVE_SATS := 10_000
  const MIN_FEE_RATE_SAT_VB := 2
  const MIN_AMOUNT_SATS := 1_000
  const MAX_INPUTS := 100

  datatype SpliceError = AmountTooSmall | NothingToAdd | NotEnoughFunds | FeeTooHigh

  /** The first `count` coins, funding `amount` at fee `fee`. */
  datatype Selection = Selection(count: nat, amount: int, fee: int)

  function PrefixFee(feeRate: int, count: nat): int { feeRate * (220 + 69 * count) }

  /** The most that the first `count` coins can add while the whole wallet keeps its reserve. */
  function Candidate(values: seq<int>, feeRate: int, count: nat): int
    requires count <= |values|
  {
    Min(Prefix(values, count), Sum(values) - ANCHOR_RESERVE_SATS) - PrefixFee(feeRate, count)
  }

  /** The first `count` coins fund `amount` within the fee cap, the input cap and the reserve. */
  ghost predicate Funds(values: seq<int>, feeRate: int, amount: int, count: nat)
  {
    && 1 <= count <= |values| && count <= MAX_INPUTS
    && PrefixFee(feeRate, count) <= MAX_FEE_SATS
    && amount <= Candidate(values, feeRate, count)
  }

  ghost predicate Fundable(values: seq<int>, feeRate: int, amount: int)
  {
    exists count: nat :: Funds(values, feeRate, amount, count)
  }

  /** Any coins at all, not only the largest, fund `amount` under the same caps and reserve. */
  ghost predicate FundedBy(values: seq<int>, feeRate: int, amount: int, picks: set<nat>)
  {
    && (forall i | i in picks :: i < |values|)
    && 1 <= |picks| <= MAX_INPUTS
    && PrefixFee(feeRate, |picks|) <= MAX_FEE_SATS
    && amount + PrefixFee(feeRate, |picks|) <= Chosen(values, picks, |values|)
    && Sum(values) - amount - PrefixFee(feeRate, |picks|) >= ANCHOR_RESERVE_SATS
  }

  lemma PrefixFeeMonotone(feeRate: int, m: nat, n: nat)
    requires feeRate >= 0 && m <= n
    ensures PrefixFee(feeRate, m) <= PrefixFee(feeRate, n)
  {
    MulOrder(220 + 69 * m, 220 + 69 * n, feeRate);
  }

  /** The search over largest-first prefixes: zero, or the greatest fundable amount. */
  method MaximumAmount(values: seq<int>, feeRate: int) returns (maximum: int)
    requires feeRate >= MIN_FEE_RATE_SAT_VB
    ensures maximum >= 0
    ensures maximum > 0 ==> Fundable(values, feeRate, maximum)
    ensures forall amount | amount > maximum :: !Fundable(values, feeRate, amount)
  {
    maximum := 0;
    var prefixValue := 0;
    var count := 1;
    while count <= Min(|values|, MAX_INPUTS)
      invariant 1 <= count <= Min(|values|, MAX_INPUTS) + 1
      invariant prefixValue == Prefix(values, count - 1)
      invariant maximum >= 0
      invariant maximum > 0 ==> Fundable(values, feeRate, maximum)
      invariant forall k | 1 <= k < count :: Candidate(values, feeRate, k) <= maximum
    {
      PrefixStep(values, count - 1);
      prefixValue := prefixValue + values[count - 1];
      var prefixFee := PrefixFee(feeRate, count);
      if prefixFee > MAX_FEE_SATS {
        forall k: nat | count <= k ensures PrefixFee(feeRate, k) > MAX_FEE_SATS {
          PrefixFeeMonotone(feeRate, count, k);
        }
        break;
      }
      var funded := prefixValue - prefixFee;
      var afterReserve := Sum(values) - prefixFee - ANCHOR_RESERVE_SATS;
      var candidate := if funded < afterReserve then funded else afterReserve;
      if candidate > maximum {
        maximum := candidate;
        assert Funds(values, feeRate, maximum, count);
      }
      count := count + 1;
    }
  }

  /**
   * The coin choice of a funding quote. A missing amount asks for the maximum.
   * It succeeds exactly when the amount is fundable, with the shortest largest-first prefix.
   */
  method Select(values: seq<int>, requested: Option<int>, feeRate: int) returns (r: Result<Selection, SpliceError>)
    requires feeRate >= MIN_FEE_RATE_SAT_VB
    ensures requested.Some? ==>
      (r.Ok? <==> requested.value >= MIN_AMOUNT_SATS && Fundable(values, feeRate, requested.value))
    ensures requested.Some? && r.Ok? ==> r.value.amount == requested.value
    ensures requested.None? ==>
      (r.Ok? <==> exists amount :: amount >= MIN_AMOUNT_SATS && Fundable(values, feeRate, amount))
    ensures requested.None? && r.Ok? ==>
      forall amount | Fundable(values, feeRate, amount) :: amount <= r.value.amount
    ensures r.Ok? ==>
      && r.value.amount >= MIN_AMOUNT_SATS
      && Funds(values, feeRate, r.value.amount, r.value.count)
      && (forall k | 1 <= k < r.value.count :: r.value.amount > Candidate(values, feeRate, k))
      && r.value.fee == PrefixFee(feeRate, r.value.count)
    ensures r.Err? && requested.None? ==> r.error == NothingToAdd
    ensures r.Err? && requested.Some? ==>
      && (r.error == AmountTooSmall <==> requested.value < MIN_AMOUNT_SATS)
      && (r.error == FeeTooHigh <==>
            && requested.value >= MIN_AMOUNT_SATS
            && exists k: nat :: 1 <= k <= |values| && k <= MAX_INPUTS
                                && requested.value <= Candidate(values, feeRate, k))
      && r.error != NothingToAdd
  {
    if requested.Some? && requested.value < MIN_AMOUNT_SATS {
      return Err(AmountTooSmall);
    }
    var amount;
    match requested {
      case Some(a) => amount := a;
      case None =>
        amount := MaximumAmount(values, feeRate);
        if amount < MIN_AMOUNT_SATS {
          return Err(NothingToAdd);
        }
    }
    var count, selected, fee := 0, 0, 0;
    while count < |values|
      invariant 0 <= count <= |values|
      invariant selected == Prefix(values, count)
      invariant fee == if count == 0 then 0 else PrefixFee(feeRate, count)
      invariant forall k | 1 <= k <= count :: amount > Candidate(values, feeRate, k)
    {
      PrefixStep(values, count);
      selected := selected + values[count];
      count := count + 1;
      fee := PrefixFee(feeRate, count);
      if selected >= amount + fee && Sum(values) - amount - fee >= ANCHOR_RESERVE_SATS {
        break;
      }
    }
    forall k: nat | count <= k ensures PrefixFee(feeRate, count) <= PrefixFee(feeRate, k) {
      PrefixFeeMonotone(feeRate, count, k);
    }
    if count == 0 || count > MAX_INPUTS || selected < amount + fee
       || Sum(values) - amount - fee < ANCHOR_RESERVE_SATS {
      return Err(NotEnoughFunds);
    }
    assert amount <= Candidate(values, feeRate, count);
    if fee > MAX_FEE_SATS {
      return Err(FeeTooHigh);
    }
    assert Funds(values, feeRate, amount, count);
    return Ok(Selection(count, amount, fee));
  }

  /** Fundability is a threshold: what funds more also funds less, with the same coins. */
  lemma FundableBelow(values: seq<int>, feeRate: int, amount: int, less: int)
    requires Fundable(values, feeRate, amount) && less <= amount
    ensures Fundable(values, feeRate, less)
  {
    var count: nat :| Funds(values, feeRate, amount, count);
    assert Funds(values, feeRate, less, count);
  }

  /** Largest-first loses nothing: an amount is fundable by some coins exactly when by a prefix. */
  lemma PrefixesLoseNothing(values: seq<int>, feeRate: int, amount: int)
    requires Descending(values)
    ensures Fundable(values, feeRate, amount) <==> exists picks :: FundedBy(values, feeRate, amount, picks)
  {
    if Fundable(values, feeRate, amount) {
      var count: nat :| Funds(values, feeRate, amount, count);
      FirstPicksFund(values, count, |values|);
      assert FundedBy(values, feeRate, amount, FirstPicks(count));
    }
    if picks :| FundedBy(values, feeRate, amount, picks) {
      assert Below(picks, |values|) == picks;
      LargestFirstIsBest(values, picks, |values|);
      assert Funds(values, feeRate, amount, |picks|);
    }
  }

  ghost function FirstPicks(count: nat): (picks: set<nat>)
    ensures |picks| == count
    ensures forall i: nat :: i in picks <==> i < count
  {
    if count == 0 then {} else FirstPicks(count - 1) + {count - 1}
  }

  lemma {:induction false} FirstPicksFund(values: seq<int>, count: nat, n: nat)
    requires count <= |values| && n <= |values|
    ensures Chosen(values, FirstPicks(count), n) == Prefix(values, if n < count then n else count)
  {
    if n > 0 {
      FirstPicksFund(values, count, n - 1);
      if n <= count {
        PrefixStep(values, n - 1);
      }
    }
  }
}
