/**
 * Choosing the wallet coins that subsidise a force-close sweep: a
 * largest-first search with an early exit over two variants of the transaction.
 */
module SubsidySelection {
  import opened Results
  import opened Arithmetic
  import opened CoinSums

  const DUST_LIMIT_SATS := 546
  const BDK_INPUT_WEIGHT_WU := 272
  const CHANGE_OUTPUT_WEIGHT_WU := 124
  const CHANGE_OUTPUT_VBYTES := 31
  const MAX_SUBSIDY_INPUTS := 20

  /** What the swept outputs and the market demand of the selection. */
  datatype Demand = Demand(ldkWeight: nat, ldkFee: nat, rate: nat)

  datatype Outcome =
    | Selected(count: nat, change: Option<int>, totalFee: int, subsidy: int)
    | Shortfall(needed: int, available: int)

  function FeeForWeight(weight: nat, rate: nat): nat { ((weight + 3) / 4) * rate }

  function Weight(d: Demand, n: nat, withChange: bool): nat
  {
    d.ldkWeight + n * BDK_INPUT_WEIGHT_WU + if withChange then CHANGE_OUTPUT_WEIGHT_WU else 0
  }

  function Needed(d: Demand, n: nat, withChange: bool): nat
  {
    Max(FeeForWeight(Weight(d, n, withChange), d.rate) - d.ldkFee, 0)
  }

  function Spendable(values: seq<int>, reserve: int): int { Max(Sum(values) - reserve, 0) }

  /** Coins worth `sum` carry the sweep and return change above dust. */
  ghost predicate FitsWithChange(d: Demand, n: nat, sum: int, spendable: int)
  {
    Needed(d, n, true) <= spendable && sum - Needed(d, n, true) >= DUST_LIMIT_SATS
  }

  /** Coins worth `sum` carry the sweep with nothing returned. */
  ghost predicate FitsChangeless(d: Demand, n: nat, sum: int, spendable: int)
  {
    Needed(d, n, false) <= sum <= spendable
  }

  ghost predicate Fits(values: seq<int>, reserve: int, d: Demand, n: nat)
    requires n <= |values|
  {
    || FitsWithChange(d, n, Prefix(values, n), Spendable(values, reserve))
    || FitsChangeless(d, n, Prefix(values, n), Spendable(values, reserve))
  }

  /** A prefix of at most 20 coins in the preferred variant that fits, with its change, fee and subsidy. */
  ghost predicate IsSelection(values: seq<int>, d: Demand, reserve: int, r: Outcome)
  {
    && r.Selected?
    && 1 <= r.count <= |values| && r.count <= MAX_SUBSIDY_INPUTS
    && var sum, spendable := Prefix(values, r.count), Spendable(values, reserve);
    && r.change.Some? == FitsWithChange(d, r.count, sum, spendable)
    && (r.change.None? ==> FitsChangeless(d, r.count, sum, spendable))
    && r.subsidy == (if r.change.Some? then Needed(d, r.count, true) else sum)
    && (r.change.Some? ==> r.change.value == sum - r.subsidy)
    && r.totalFee == d.ldkFee + r.subsidy
  }

  /** Both the with-change fee and the coins themselves are beyond the budget. */
  ghost predicate Hopeless(values: seq<int>, reserve: int, d: Demand, n: nat)
    requires n <= |values|
  {
    Needed(d, n, true) > Spendable(values, reserve) && Prefix(values, n) > Spendable(values, reserve)
  }

  /** Where an unsuccessful search ends: at the first hopeless prefix, else at the last one it may try. */
  ghost predicate StopsAt(values: seq<int>, reserve: int, d: Demand, n: nat)
  {
    && (n <= |values| || n == 1)
    && (forall m: nat | 1 <= m < n && m <= |values| :: !Hopeless(values, reserve, d, m))
    && (n == Max(1, Min(|values|, MAX_SUBSIDY_INPUTS))
        || (1 <= n <= |values| && n <= MAX_SUBSIDY_INPUTS && Hopeless(values, reserve, d, n)))
  }

  ghost predicate NonNegative(values: seq<int>) { forall i | 0 <= i < |values| :: values[i] >= 0 }

  lemma FeeMonotone(w: nat, w': nat, rate: nat)
    requires w <= w'
    ensures FeeForWeight(w, rate) <= FeeForWeight(w', rate)
  {
    DivMonotone(w + 3, w' + 3, 4);
    MulOrder((w + 3) / 4, (w' + 3) / 4, rate);
  }

  lemma NeededMonotone(d: Demand, m: nat, n: nat, withChange: bool)
    requires m <= n
    ensures Needed(d, m, withChange) <= Needed(d, n, withChange)
  {
    FeeMonotone(Weight(d, m, withChange), Weight(d, n, withChange), d.rate);
  }

  /** A change output costs exactly 31 vbytes. */
  lemma ChangeCost(d: Demand, n: nat)
    ensures FeeForWeight(Weight(d, n, true), d.rate)
         == FeeForWeight(Weight(d, n, false), d.rate) + CHANGE_OUTPUT_VBYTES * d.rate
  {
    var w := Weight(d, n, false) + 3;
    assert (w + 124) / 4 == w / 4 + 31;
    assert (w / 4 + 31) * d.rate == (w / 4) * d.rate + 31 * d.rate;
  }

  /** Both the fee and the selection already exceed the budget, so every longer prefix fails too. */
  lemma NoLongerPrefixFits(values: seq<int>, reserve: int, d: Demand, n: nat)
    requires NonNegative(values) && n <= |values|
    requires Hopeless(values, reserve, d, n)
    ensures forall m | n <= m <= |values| :: !Fits(values, reserve, d, m)
  {
    forall m | n <= m <= |values| ensures !Fits(values, reserve, d, m) {
      NeededMonotone(d, n, m, true);
      PrefixMonotone(values, n, m);
    }
  }

  lemma NoCoins(values: seq<int>)
    ensures Prefix(values, 0) == 0
  {
  }

  /**
   * The selection loop. It returns the shortest largest-first prefix of at most 20 coins that
   * fits, preferring change, and reports a shortfall exactly when no such prefix fits.
   */
  method SelectSubsidyInputs(values: seq<int>, d: Demand, reserve: int) returns (r: Outcome)
    requires NonNegative(values)
    ensures r.Selected? <==> exists n :: 1 <= n <= |values| && n <= MAX_SUBSIDY_INPUTS && Fits(values, reserve, d, n)
    ensures r.Selected? ==>
      && IsSelection(values, d, reserve, r)
      && forall n | 1 <= n < r.count :: !Fits(values, reserve, d, n)
    ensures r.Shortfall? ==>
      && r.available == Spendable(values, reserve)
      && exists n: nat :: StopsAt(values, reserve, d, n) && r.needed == Needed(d, n, true)
  {
    hide Needed, Spendable, Prefix;
    var spendable := Spendable(values, reserve);
    var count, selectedSum := 0, 0;
    assert Prefix(values, 0) == 0 by { NoCoins(values); }
    var i := 0;
    while i < |values|
      invariant 0 <= i == count <= |values| && count <= MAX_SUBSIDY_INPUTS
      invariant selectedSum == Prefix(values, count)
      invariant forall n | 1 <= n <= count :: !Fits(values, reserve, d, n)
      invariant forall m: nat | 1 <= m <= count :: !Hopeless(values, reserve, d, m)
    {
      if count >= MAX_SUBSIDY_INPUTS {
        break;
      }
      PrefixStep(values, count);
      selectedSum := selectedSum + values[i];
      count := count + 1;
      i := i + 1;
      var needed := Needed(d, count, true);
      var change := selectedSum - needed;
      if needed <= spendable && change >= DUST_LIMIT_SATS {
        assert Fits(values, reserve, d, count);
        return Selected(count, Some(change), d.ldkFee + needed, needed);
      }
      var neededDrained := Needed(d, count, false);
      if selectedSum >= neededDrained && selectedSum <= spendable {
        assert Fits(values, reserve, d, count);
        return Selected(count, None, d.ldkFee + selectedSum, selectedSum);
      }
      if needed > spendable && selectedSum > spendable {
        NoLongerPrefixFits(values, reserve, d, count);
        break;
      }
    }
    var n := if count > 1 then count else 1;
    assert StopsAt(values, reserve, d, n);
    return Shortfall(Needed(d, n, true), spendable);
  }

  // ----- what a successful selection costs -----

  /**
   * The fee pays the target rate for the weight the variant really has, a changeless result
   * overpays by less than dust plus one change output, and the wallet keeps its reserve or,
   * when it had less, everything. The gate is the one the sweep checks first: one coin and a
   * change output must need a subsidy at all.
   */
  lemma SelectionFee(values: seq<int>, d: Demand, reserve: int, r: Outcome)
    requires NonNegative(values) && reserve >= 0
    requires IsSelection(values, d, reserve, r)
    requires Needed(d, 1, true) > 0
    ensures var target := FeeForWeight(Weight(d, r.count, r.change.Some?), d.rate);
            && target <= r.totalFee
            && (r.change.Some? ==> r.totalFee == target && r.change.value >= DUST_LIMIT_SATS)
            && (r.change.None? ==> r.totalFee - target < DUST_LIMIT_SATS + CHANGE_OUTPUT_VBYTES * d.rate)
    ensures Sum(values) - r.subsidy >= Min(Sum(values), reserve)
  {
    ChangeCost(d, r.count);
    NeededMonotone(d, 1, r.count, true);
    assert values[..|values|] == values;
    PrefixMonotone(values, 0, |values|);
  }

  // ----- largest-first against every other choice -----

  /** No other choice of at most 20 coins can carry the sweep with change when the loop reports a shortfall. */
  lemma NoSubsetFitsWithChange(values: seq<int>, d: Demand, reserve: int, picks: set<nat>)
    requires Descending(values)
    requires forall i | i in picks :: i < |values|
    requires 1 <= |picks| <= MAX_SUBSIDY_INPUTS
    requires FitsWithChange(d, |picks|, Chosen(values, picks, |values|), Spendable(values, reserve))
    ensures |picks| <= |values| && Fits(values, reserve, d, |picks|)
  {
    assert Below(picks, |values|) == picks;
    LargestFirstIsBest(values, picks, |values|);
  }

  /**
   * A reserve of at most the smallest coin hides nothing: every choice that carries the sweep, in either
   * variant, has a prefix of its size that does.
   */
  lemma SmallReserveMissesNothing(values: seq<int>, d: Demand, reserve: int, picks: set<nat>)
    requires Descending(values) && NonNegative(values)
    requires values != [] && reserve <= values[|values| - 1]
    requires IsChoice(values, picks) && Carries(values, reserve, d, picks)
    ensures |picks| <= |values| && Fits(values, reserve, d, |picks|)
  {
    assert Below(picks, |values|) == picks;
    LargestFirstIsBest(values, picks, |values|);
    var n := |picks|;
    assert values[..|values|] == values;
    if n < |values| {
      PrefixMonotone(values, n, |values| - 1);
      PrefixStep(values, |values| - 1);
    } else {
      AllPicked(values, picks, |values|);
    }
  }

  /** As many indices as there are values are all of them. */
  lemma {:induction false} AllPicked(values: seq<int>, picks: set<nat>, n: nat)
    requires n <= |values| && |Below(picks, n)| == n
    ensures Chosen(values, picks, n) == Prefix(values, n)
  {
    if n > 0 {
      BelowStep(picks, n - 1);
      BelowBound(picks, n - 1);
      AllPicked(values, picks, n - 1);
      PrefixStep(values, n - 1);
    }
  }

  // ----- exactly when a choice is missed -----

  const INPUT_VBYTES := 68
  /** The lowest rate that a sweep uses. */
  const MIN_RATE := 2

  /** At most 20 coins of the wallet, in any combination. */
  ghost predicate IsChoice(values: seq<int>, picks: set<nat>)
  {
    (forall i | i in picks :: i < |values|) && 1 <= |picks| <= MAX_SUBSIDY_INPUTS
  }

  /** The chosen coins carry the sweep in one of the two variants. */
  ghost predicate Carries(values: seq<int>, reserve: int, d: Demand, picks: set<nat>)
    requires IsChoice(values, picks)
  {
    var sum, spendable := Chosen(values, picks, |values|), Spendable(values, reserve);
    FitsWithChange(d, |picks|, sum, spendable) || FitsChangeless(d, |picks|, sum, spendable)
  }

  /**
   * A demand as the sweep makes it: LDK builds its transaction, of at least `lightest` vbytes, at the floor of 250 sat
   * per 1,000 weight units and so pays a quarter of its weight, rounded down.
   */
  ghost predicate IsAsked(d: Demand, rate: nat, lightest: nat)
  {
    d.rate == rate && d.ldkFee == d.ldkWeight / 4 && (d.ldkWeight + 3) / 4 >= lightest
  }

  /** Whatever the sweep demands at this rate, if any choice of coins carries it then some prefix does. */
  ghost predicate NothingMissed(values: seq<int>, reserve: int, rate: nat, lightest: nat)
  {
    forall d, picks | IsAsked(d, rate, lightest) && IsChoice(values, picks) && Carries(values, reserve, d, picks) ::
      exists n :: 1 <= n <= |values| && n <= MAX_SUBSIDY_INPUTS && Fits(values, reserve, d, n)
  }

  /** What a choice is worth once it has paid for its own inputs. */
  ghost function EffectiveValue(values: seq<int>, picks: set<nat>, rate: nat): int
  {
    Chosen(values, picks, |values|) - INPUT_VBYTES * rate * |picks|
  }

  /**
   * The most that a transaction at the floor rate can ask, before any coin has paid for itself, of coins of this
   * effective value: m vbytes ask m * (rate - 1), and one satoshi more when the last vbyte is not full.
   */
  function MostAsked(effective: int, rate: nat): int
    requires rate >= MIN_RATE
  {
    (effective / (rate - 1)) * (rate - 1) + if effective % (rate - 1) >= 1 then 1 else 0
  }

  /**
   * The first n coins pay this much on top of their own inputs: they may be spent whole and are worth it, or they
   * pay it with a change output above dust.
   */
  ghost predicate Pays(values: seq<int>, reserve: int, rate: nat, base: int, n: nat)
    requires n <= |values|
  {
    var sum, spendable := Prefix(values, n), Spendable(values, reserve);
    var cost := base + INPUT_VBYTES * rate * n;
    || cost <= sum <= spendable
    || cost + CHANGE_OUTPUT_VBYTES * rate <= Min(spendable, sum - DUST_LIMIT_SATS)
  }

  /** A choice within the budget that is worth enough to carry the lightest sweep. */
  ghost predicate Affordable(values: seq<int>, reserve: int, rate: nat, lightest: nat, picks: set<nat>)
  {
    && IsChoice(values, picks)
    && Chosen(values, picks, |values|) <= Spendable(values, reserve)
    && EffectiveValue(values, picks, rate) >= lightest * (rate - 1)
  }

  /** For every affordable choice some prefix pays the most that can be asked of it. */
  ghost predicate ChoicesMatched(values: seq<int>, reserve: int, rate: nat, lightest: nat)
    requires rate >= MIN_RATE
  {
    forall picks | Affordable(values, reserve, rate, lightest, picks) ::
      exists n :: 1 <= n <= |values| && n <= MAX_SUBSIDY_INPUTS
                  && Pays(values, reserve, rate, MostAsked(EffectiveValue(values, picks, rate), rate), n)
  }

  /** What the fee asks of the coins before any of them has paid for itself. */
  function Base(d: Demand): int { ((d.ldkWeight + 3) / 4) * d.rate - d.ldkFee }

  lemma NeededIs(d: Demand, n: nat, withChange: bool)
    ensures Needed(d, n, withChange)
         == Max(Base(d) + INPUT_VBYTES * d.rate * n + if withChange then CHANGE_OUTPUT_VBYTES * d.rate else 0, 0)
  {
    ChangeCost(d, n);
    assert (d.ldkWeight + n * 272 + 3) / 4 == (d.ldkWeight + 3) / 4 + INPUT_VBYTES * n;
    assert ((d.ldkWeight + 3) / 4 + INPUT_VBYTES * n) * d.rate
        == ((d.ldkWeight + 3) / 4) * d.rate + INPUT_VBYTES * d.rate * n;
  }

  /** At the floor rate the base is a multiple of rate - 1, or one more. */
  lemma BaseAtFloor(d: Demand)
    requires d.ldkFee == d.ldkWeight / 4
    ensures var m := (d.ldkWeight + 3) / 4;
            Base(d) == m * (d.rate - 1) + if d.ldkWeight % 4 > 0 then 1 else 0
  {
    var m := (d.ldkWeight + 3) / 4;
    assert m * d.rate == m * (d.rate - 1) + m;
  }

  /** No demand at the floor rate that stays within the effective value asks more. */
  lemma AsksAtMost(d: Demand, effective: int)
    requires d.ldkFee == d.ldkWeight / 4 && d.rate >= MIN_RATE && Base(d) <= effective
    ensures Base(d) <= MostAsked(effective, d.rate)
  {
    var m, k := (d.ldkWeight + 3) / 4, d.rate - 1;
    BaseAtFloor(d);
    DivIsGreatest(m, effective, k);
    ModBounds(effective, k);
    MulOrder(m + 1, effective / k, k);
  }

  /** The demand that asks the most of this effective value. */
  function Draining(effective: int, rate: nat): (d: Demand)
    requires rate >= MIN_RATE && effective >= rate - 1
  {
    var m := effective / (rate - 1);
    DivIsGreatest(1, effective, rate - 1);
    if effective % (rate - 1) >= 1 then Demand(4 * m - 1, m - 1, rate) else Demand(4 * m, m, rate)
  }

  lemma DrainingAsksTheMost(effective: int, rate: nat, lightest: nat)
    requires rate >= MIN_RATE && lightest >= 1 && effective >= lightest * (rate - 1)
    ensures effective >= rate - 1
    ensures var d := Draining(effective, rate);
            IsAsked(d, rate, lightest) && Base(d) == MostAsked(effective, rate) <= effective
  {
    MulOrder(1, lightest, rate - 1);
    DivIsGreatest(lightest, effective, rate - 1);
    ModBounds(effective, rate - 1);
    var d, m := Draining(effective, rate), effective / (rate - 1);
    assert (d.ldkWeight + 3) / 4 == m && d.ldkFee == d.ldkWeight / 4;
    BaseAtFloor(d);
    hide Base, Draining;
  }

  lemma {:induction false} ChosenNonNegative(values: seq<int>, picks: set<nat>, n: nat)
    requires NonNegative(values) && n <= |values|
    ensures Chosen(values, picks, n) >= 0
  {
    if n > 0 {
      ChosenNonNegative(values, picks, n - 1);
    }
  }

  /** A prefix that pays the most that can be asked of a choice carries every demand the choice carries without change. */
  lemma PayingCarries(values: seq<int>, reserve: int, d: Demand, picks: set<nat>, n: nat)
    requires NonNegative(values) && IsChoice(values, picks) && 1 <= n <= |values|
    requires d.ldkFee == d.ldkWeight / 4 && d.rate >= MIN_RATE
    requires FitsChangeless(d, |picks|, Chosen(values, picks, |values|), Spendable(values, reserve))
    requires Pays(values, reserve, d.rate, MostAsked(EffectiveValue(values, picks, d.rate), d.rate), n)
    ensures Fits(values, reserve, d, n)
  {
    var effective := EffectiveValue(values, picks, d.rate);
    assert Base(d) <= effective by {
      NeededIs(d, |picks|, false);
    }
    AsksAtMost(d, effective);
    assert Base(d) >= 0 by {
      BaseAtFloor(d);
      MulOrder(0, (d.ldkWeight + 3) / 4, d.rate - 1);
    }
    hide Base, MostAsked, Needed;
    PayingFits(values, reserve, d, MostAsked(effective, d.rate), n);
  }

  lemma PayingFits(values: seq<int>, reserve: int, d: Demand, base: int, n: nat)
    requires NonNegative(values) && 1 <= n <= |values|
    requires 0 <= Base(d) <= base && Pays(values, reserve, d.rate, base, n)
    ensures Fits(values, reserve, d, n)
  {
    NeededIs(d, n, false);
    NeededIs(d, n, true);
    PrefixMonotone(values, 0, n);
    NoCoins(values);
    hide Needed, Base, Spendable, Prefix;
  }

  /** An affordable choice carries the demand that asks the most of it; a prefix that fits that demand pays as much. */
  lemma DrainingTells(values: seq<int>, reserve: int, rate: nat, lightest: nat, picks: set<nat>)
    requires NonNegative(values) && rate >= MIN_RATE && lightest >= 1
    requires Affordable(values, reserve, rate, lightest, picks)
    ensures var effective := EffectiveValue(values, picks, rate);
            && effective >= rate - 1
            && var d := Draining(effective, rate);
            && IsAsked(d, rate, lightest)
            && Carries(values, reserve, d, picks)
            && forall n: nat | 1 <= n <= |values| && Fits(values, reserve, d, n) ::
                 Pays(values, reserve, rate, MostAsked(effective, rate), n)
  {
    var effective := EffectiveValue(values, picks, rate);
    DrainingAsksTheMost(effective, rate, lightest);
    var d := Draining(effective, rate);
    NeededIs(d, |picks|, false);
    ChosenNonNegative(values, picks, |values|);
    forall n: nat | 1 <= n <= |values| && Fits(values, reserve, d, n)
      ensures Pays(values, reserve, rate, MostAsked(effective, rate), n)
    {
      NeededIs(d, n, false);
      NeededIs(d, n, true);
    }
    hide Needed, Base, Spendable, Draining, MostAsked;
  }

  /**
   * Exactly when the search misses no choice, over all transactions of at least `lightest` vbytes that LDK makes at its
   * floor: some prefix of at most 20 coins pays the most that can be asked of each choice within the budget. The
   * condition names the wallet, the reserve and the rate only.
   */
  lemma NothingMissedIff(values: seq<int>, reserve: int, rate: nat, lightest: nat)
    requires Descending(values) && NonNegative(values) && rate >= MIN_RATE && lightest >= 1
    ensures NothingMissed(values, reserve, rate, lightest) <==> ChoicesMatched(values, reserve, rate, lightest)
  {
    hide Fits, Pays, EffectiveValue, Draining, MostAsked;
    if ChoicesMatched(values, reserve, rate, lightest) {
      forall d, picks | IsAsked(d, rate, lightest) && IsChoice(values, picks) && Carries(values, reserve, d, picks)
        ensures exists n :: 1 <= n <= |values| && n <= MAX_SUBSIDY_INPUTS && Fits(values, reserve, d, n)
      {
        SomePrefixFits(values, reserve, d, lightest, picks);
      }
    }
    if NothingMissed(values, reserve, rate, lightest) {
      forall picks | Affordable(values, reserve, rate, lightest, picks)
        ensures exists n :: 1 <= n <= |values| && n <= MAX_SUBSIDY_INPUTS
                            && Pays(values, reserve, rate, MostAsked(EffectiveValue(values, picks, rate), rate), n)
      {
        DrainingTells(values, reserve, rate, lightest, picks);
        var d := Draining(EffectiveValue(values, picks, rate), rate);
        var n :| 1 <= n <= |values| && n <= MAX_SUBSIDY_INPUTS && Fits(values, reserve, d, n);
        assert Pays(values, reserve, rate, MostAsked(EffectiveValue(values, picks, rate), rate), n);
      }
    }
  }

  lemma SomePrefixFits(values: seq<int>, reserve: int, d: Demand, lightest: nat, picks: set<nat>)
    requires Descending(values) && NonNegative(values) && d.rate >= MIN_RATE && lightest >= 1
    requires ChoicesMatched(values, reserve, d.rate, lightest)
    requires IsAsked(d, d.rate, lightest) && IsChoice(values, picks) && Carries(values, reserve, d, picks)
    ensures exists n :: 1 <= n <= |values| && n <= MAX_SUBSIDY_INPUTS && Fits(values, reserve, d, n)
  {
    var sum, spendable := Chosen(values, picks, |values|), Spendable(values, reserve);
    if FitsWithChange(d, |picks|, sum, spendable) {
      NoSubsetFitsWithChange(values, d, reserve, picks);
    } else {
      CarriedIsAffordable(values, reserve, d, lightest, picks);
      hide Pays, EffectiveValue, MostAsked;
      var n :| 1 <= n <= |values| && n <= MAX_SUBSIDY_INPUTS
               && Pays(values, reserve, d.rate, MostAsked(EffectiveValue(values, picks, d.rate), d.rate), n);
      PayingCarries(values, reserve, d, picks, n);
      assert Fits(values, reserve, d, n);
    }
  }

  lemma CarriedIsAffordable(values: seq<int>, reserve: int, d: Demand, lightest: nat, picks: set<nat>)
    requires d.rate >= MIN_RATE && IsAsked(d, d.rate, lightest) && IsChoice(values, picks)
    requires FitsChangeless(d, |picks|, Chosen(values, picks, |values|), Spendable(values, reserve))
    ensures Affordable(values, reserve, d.rate, lightest, picks)
  {
    NeededIs(d, |picks|, false);
    BaseAtFloor(d);
    MulOrder(lightest, (d.ldkWeight + 3) / 4, d.rate - 1);
    hide Needed, Base, Spendable;
  }

  /**
   * When the largest coin exceeds the budget by the dust limit, only that coin with a change output is left to the search:
   * at any rate nothing is missed exactly when the budget covers it for the most that can be asked of each choice.
   */
  lemma LargestCoinBeyondBudget(values: seq<int>, reserve: int, rate: nat, lightest: nat)
    requires Descending(values) && NonNegative(values) && rate >= MIN_RATE && lightest >= 1
    requires values != [] && values[0] >= Spendable(values, reserve) + DUST_LIMIT_SATS
    ensures NothingMissed(values, reserve, rate, lightest) <==>
            forall picks | Affordable(values, reserve, rate, lightest, picks) ::
              MostAsked(EffectiveValue(values, picks, rate), rate) + (INPUT_VBYTES + CHANGE_OUTPUT_VBYTES) * rate
              <= Spendable(values, reserve)
  {
    NothingMissedIff(values, reserve, rate, lightest);
    hide Spendable, EffectiveValue, MostAsked, Affordable, NothingMissed, Pays;
    forall picks | Affordable(values, reserve, rate, lightest, picks)
      ensures (exists n :: 1 <= n <= |values| && n <= MAX_SUBSIDY_INPUTS
                           && Pays(values, reserve, rate, MostAsked(EffectiveValue(values, picks, rate), rate), n))
              <==> MostAsked(EffectiveValue(values, picks, rate), rate) + (INPUT_VBYTES + CHANGE_OUTPUT_VBYTES) * rate
                   <= Spendable(values, reserve)
    {
      OnlyTheFirstPays(values, reserve, rate, MostAsked(EffectiveValue(values, picks, rate), rate));
    }
  }

  lemma OnlyTheFirstPays(values: seq<int>, reserve: int, rate: nat, base: int)
    requires NonNegative(values) && values != []
    requires values[0] >= Spendable(values, reserve) + DUST_LIMIT_SATS
    ensures (exists n :: 1 <= n <= |values| && n <= MAX_SUBSIDY_INPUTS && Pays(values, reserve, rate, base, n))
            <==> base + (INPUT_VBYTES + CHANGE_OUTPUT_VBYTES) * rate <= Spendable(values, reserve)
  {
    NoCoins(values);
    PrefixStep(values, 0);
    hide Spendable, Prefix;
    forall n: nat | 1 <= n <= |values| && Pays(values, reserve, rate, base, n)
      ensures base + (INPUT_VBYTES + CHANGE_OUTPUT_VBYTES) * rate <= Spendable(values, reserve)
    {
      PrefixMonotone(values, 1, n);
      MulOrder(1, n, INPUT_VBYTES * rate);
    }
    if base + (INPUT_VBYTES + CHANGE_OUTPUT_VBYTES) * rate <= Spendable(values, reserve) {
      assert Pays(values, reserve, rate, base, 1);
    }
  }

  lemma {:induction false} SinglePick(values: seq<int>, i: nat, n: nat)
    requires n <= |values| && i < |values|
    ensures Chosen(values, {i}, n) == if i < n then values[i] else 0
  {
    if n > 0 {
      SinglePick(values, i, n - 1);
    }
  }

  /**
   * A wallet that misses one: with the 10,000-sat reserve, a coin of 10,000 sats breaks the budget of 1,900 and ends the
   * search, while the 1,900-sat coin alone would have paid without change.
   */
  lemma ReserveCanHideChangeless()
    ensures var values, d, reserve := [10_000, 1_900], Demand(500, 125, 10), 10_000;
            && Descending(values) && IsAsked(d, 10, 125)
            && FitsChangeless(d, 1, Chosen(values, {1}, 2), Spendable(values, reserve))
            && (forall n | 1 <= n <= |values| :: !Fits(values, reserve, d, n))
            && forall lightest | 1 <= lightest <= 125 :: !NothingMissed(values, reserve, 10, lightest)
  {
    var values, d, reserve := [10_000, 1_900], Demand(500, 125, 10), 10_000;
    PrefixStep(values, 0);
    PrefixStep(values, 1);
    assert values[..2] == values;
    assert Spendable(values, reserve) == 1_900;
    SinglePick(values, 1, 2);
    assert Needed(d, 1, true) == 2_115 && Needed(d, 1, false) == 1_805;
    NoLongerPrefixFits(values, reserve, d, 1);
    var picks: set<nat> := {1};
    assert IsChoice(values, picks) && Carries(values, reserve, d, picks);
    forall lightest | 1 <= lightest <= 125 ensures !NothingMissed(values, reserve, 10, lightest) {
      assert IsAsked(d, 10, lightest);
    }
  }
}
