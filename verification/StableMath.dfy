/**
 * The dollar-position arithmetic: when a settlement is due, what a new target
 * costs and holds, and how much of a received payment becomes backing.
 * Amounts are integers; a division is the source's bigint division, which on
 * these non-negative operands rounds down.
 */
module StableMath {
  import opened Results
  import opened Arithmetic

  const SATS := 100_000_000
  const USD_UNITS := 1_000_000_000
  const UNITS_PER_CENT := 10_000_000
  /** Largest price in cents that the price feed accepts. */
  const MAX_PRICE_CENTS := 1_000_000_000

  datatype Action = Stable | Pay | AwaitingProvider
  datatype Decision = Decision(action: Action, sats: int)
  datatype Allocation = Allocation(target: int, backing: int, fee: int)
  datatype MathError =
    | InvalidAllocation
    | InvalidTarget
    | InsufficientForFee
    | SettleFirst
    | NoRoomForFee
    | InvalidSettlementBalance

  // ----- the three functions of the source -----

  /** How far the backing is worth more than the target, scaled by SATS. */
  function Drift(target: int, backing: int, price: int): int { backing * price - target * SATS }

  function SettlementDecision(target: int, backing: int, price: int, units: int): Result<Decision, MathError>
  {
    if target < 0 || backing < 0 || price <= 0 then Err(InvalidAllocation)
    else
      var drift := Drift(target, backing, price);
      var absolute := Abs(drift);
      if absolute < (units * SATS) / 4 || absolute * 1000 < target * SATS then Ok(Decision(Stable, 0))
      else Ok(Decision(if drift > 0 then Pay else AwaitingProvider, absolute / price))
  }

  function ConversionFee(delta: int, price: int): int
    requires price > 0
  {
    (Abs(delta) * SATS) / ((if delta > 0 then 99 else 100) * price)
  }

  function QuoteAllocation(currentTarget: int, currentBacking: int, target: int, price: int,
                           spendable: int, receiver: int, units: int): Result<Allocation, MathError>
  {
    if target < 0 || currentTarget < 0 || currentBacking < 0 || price <= 0 then Err(InvalidTarget)
    else
      var fee := ConversionFee(target - currentTarget, price);
      if spendable <= 0 || spendable < fee then Err(InsufficientForFee)
      else if target == 0 && SettlementDecision(currentTarget, currentBacking, price, units).value.action != Stable
        then Err(SettleFirst)
      else
        var proportional :=
          if target == 0 then 0
          else currentBacking + (target * SATS) / price - (currentTarget * SATS) / price;
        var postFee := receiver - fee;
        var backing :=
          if currentTarget == 0 && currentBacking == 0 && target > 0 && proportional <= postFee
             && (postFee - proportional) * price * 100 < units * SATS
          then postFee else proportional;
        if backing < 0 || (target > 0 && backing == 0) || backing > receiver - fee then Err(NoRoomForFee)
        else Ok(Allocation(target, backing, fee))
  }

  function ReceivedBacking(backing: int, target: int, price: int, sats: int, receiver: int): (r: Result<int, MathError>)
    ensures r.Ok? ==> backing <= r.value
  {
    if backing < 0 || target < 0 || price <= 0 || sats <= 0 || receiver < backing then Err(InvalidSettlementBalance)
    else
      var equilibrium := (target * SATS) / price;
      if backing >= equilibrium then Ok(backing)
      else Ok(Min(Min(backing + sats, equilibrium), receiver))
  }

  // ----- settlements -----

  /**
   * Paying what the decision asks for leaves the remainder of the drift modulo the price:
   * never less than the target, and stable again exactly when that remainder is inside
   * one of the two tolerances.
   */
  lemma PaymentLeavesRemainder(target: int, backing: int, price: int, units: int)
    requires SettlementDecision(target, backing, price, units).Ok?
    requires SettlementDecision(target, backing, price, units).value.action == Pay
    ensures var sats := SettlementDecision(target, backing, price, units).value.sats;
            var rest := Drift(target, backing, price) % price;
            && 0 <= sats <= backing
            && Drift(target, backing - sats, price) == rest >= 0
            && (SettlementDecision(target, backing - sats, price, units) == Ok(Decision(Stable, 0))
                <==> rest < (units * SATS) / 4 || rest * 1000 < target * SATS)
  {
    var drift := Drift(target, backing, price);
    var sats := drift / price;
    DivBounds(drift, price);
    assert drift == price * sats + drift % price;
    assert (backing - sats) * price == backing * price - price * sats;
    DivIsGreatest(sats, drift, price);
    MulOrder(sats, backing, price);
  }

  /** At every price the feed accepts, a completed user settlement is a fixed point. */
  lemma SettlementIsFixedPoint(target: int, backing: int, priceCents: int)
    requires 0 < priceCents <= MAX_PRICE_CENTS
    ensures var price := priceCents * UNITS_PER_CENT;
            match SettlementDecision(target, backing, price, USD_UNITS)
            case Ok(Decision(Pay, sats)) =>
              && 0 < sats <= backing
              && target * SATS <= (backing - sats) * price < target * SATS + price
              && SettlementDecision(target, backing - sats, price, USD_UNITS) == Ok(Decision(Stable, 0))
            case _ => true
  {
    if SettlementDecision(target, backing, priceCents * UNITS_PER_CENT, USD_UNITS).Ok?
       && SettlementDecision(target, backing, priceCents * UNITS_PER_CENT, USD_UNITS).value.action == Pay {
      var price := priceCents * UNITS_PER_CENT;
      var drift := Drift(target, backing, price);
      PaymentLeavesRemainder(target, backing, price, USD_UNITS);
      assert drift >= (USD_UNITS * SATS) / 4 > price;
      DivIsGreatest(1, drift, price);
    }
  }

  // ----- received settlements -----

  /**
   * For a position worth less than its target, the new backing is the greatest amount that
   * uses at most the payment and the channel balance and is still worth no more than the target.
   * For every other position it is the old backing.
   */
  lemma ReceivedBackingIsGreatest(backing: int, target: int, price: int, sats: int, receiver: int, units: int)
    requires units >= 0
    requires ReceivedBacking(backing, target, price, sats, receiver).Ok?
    ensures var r := ReceivedBacking(backing, target, price, sats, receiver).value;
            && backing <= r <= Min(backing + sats, receiver)
            && (backing * price > target * SATS - price ==> r == backing)
            && (backing * price <= target * SATS - price ==>
                  && r * price <= target * SATS
                  && forall x | r < x <= Min(backing + sats, receiver) :: x * price > target * SATS)
            && (backing * price <= target * SATS ==>
                  SettlementDecision(target, r, price, units).value.action != Pay)
  {
    var worth := target * SATS;
    var r := ReceivedBacking(backing, target, price, sats, receiver).value;
    DivIsGreatest(backing, worth, price);
    DivIsGreatest(backing + 1, worth, price);
    DivIsGreatest(r, worth, price);
    forall x | r < x <= Min(backing + sats, receiver)
      ensures x * price <= worth <==> x <= worth / price
    {
      DivIsGreatest(x, worth, price);
    }
  }

  // ----- allocations -----

  /**
   * An accepted quote keeps the fee payable and the backing inside what is left, and it moves
   * the backing's value by the change of target to within one satoshi; only a fresh allocation may
   * hold more, by less than one cent and one satoshi.
   */
  lemma AllocationKeepsValue(currentTarget: int, currentBacking: int, target: int, price: int,
                             spendable: int, receiver: int, units: int)
    requires QuoteAllocation(currentTarget, currentBacking, target, price, spendable, receiver, units).Ok?
    ensures var a := QuoteAllocation(currentTarget, currentBacking, target, price, spendable, receiver, units).value;
            && a.target == target
            && 0 <= a.fee <= spendable
            && 0 <= a.backing <= receiver - a.fee
            && (target > 0 ==> a.backing > 0)
            && (target == 0 ==> a.backing == 0)
            && (target > 0 && (currentTarget > 0 || currentBacking > 0) ==>
                  Abs(Drift(target, a.backing, price) - Drift(currentTarget, currentBacking, price)) < price)
            && (target > 0 && currentTarget == 0 && currentBacking == 0 ==>
                  && -price < Drift(target, a.backing, price)
                  && (Drift(target, a.backing, price) <= 0
                      || (a.backing == receiver - a.fee
                          && Drift(target, a.backing, price) * 100 < units * SATS)))
  {
    DivBounds(Abs(target - currentTarget) * SATS, (if target - currentTarget > 0 then 99 else 100) * price);
    ProportionalDrift(target, currentTarget, currentBacking, price);
    DivUnique(0, price, 0);
    var postFee := receiver - ConversionFee(target - currentTarget, price);
    var proportional := currentBacking + (target * SATS) / price - (currentTarget * SATS) / price;
    MulOrder(proportional, postFee, price);
    assert (postFee - proportional) * price == postFee * price - proportional * price;
  }

  /** Rounding both values down moves the drift by less than one satoshi's price. */
  lemma ProportionalDrift(target: int, currentTarget: int, currentBacking: int, price: int)
    requires price > 0
    ensures var backing := currentBacking + (target * SATS) / price - (currentTarget * SATS) / price;
            && -price < Drift(target, backing, price) - Drift(currentTarget, currentBacking, price) < price
            && (currentTarget == 0 && currentBacking == 0 ==> Drift(target, backing, price) <= 0)
  {
    DivBounds(target * SATS, price);
    DivBounds(currentTarget * SATS, price);
    DivUnique(0, price, 0);
    var up, down := (target * SATS) / price, (currentTarget * SATS) / price;
    assert (currentBacking + up - down) * price == currentBacking * price + price * up - price * down;
  }

  /** A fresh allocation is settled at its own price: the first tick after it pays nothing. */
  lemma FreshAllocationIsStable(target: int, priceCents: int, spendable: int, receiver: int)
    requires 0 < priceCents <= MAX_PRICE_CENTS
    ensures var price := priceCents * UNITS_PER_CENT;
            match QuoteAllocation(0, 0, target, price, spendable, receiver, USD_UNITS)
            case Ok(a) => SettlementDecision(target, a.backing, price, USD_UNITS) == Ok(Decision(Stable, 0))
            case Err(_) => true
  {
    if QuoteAllocation(0, 0, target, priceCents * UNITS_PER_CENT, spendable, receiver, USD_UNITS).Ok? {
      AllocationKeepsValue(0, 0, target, priceCents * UNITS_PER_CENT, spendable, receiver, USD_UNITS);
    }
  }

  /** Scaling every dollar amount by the same factor changes neither the outcome nor the satoshis. */
  lemma AllocationScales(currentTarget: int, currentBacking: int, target: int, price: int,
                         spendable: int, receiver: int, units: int, k: int)
    requires k > 0
    ensures var plain := QuoteAllocation(currentTarget, currentBacking, target, price, spendable, receiver, units);
            var scaled := QuoteAllocation(k * currentTarget, currentBacking, k * target, k * price,
                                          spendable, receiver, k * units);
            match plain
            case Err(e) => scaled == Err(e)
            case Ok(a) => scaled == Ok(Allocation(k * target, a.backing, a.fee))
  {
    MulOrder(target, 0, k);
    MulOrder(0, target, k);
    MulOrder(0, currentTarget, k);
    MulOrder(currentTarget, 0, k);
    MulOrder(price, 0, k);
    if target >= 0 && currentTarget >= 0 && currentBacking >= 0 && price > 0 {
      FeeScales(target - currentTarget, price, k);
      assert k * target - k * currentTarget == k * (target - currentTarget);
      ProportionalScales(target, price, k);
      ProportionalScales(currentTarget, price, k);
      DecisionScales(currentTarget, currentBacking, price, units, k);
      SnapScales(receiver - ConversionFee(target - currentTarget, price)
                 - (currentBacking + (target * SATS) / price - (currentTarget * SATS) / price), price, units, k);
    }
  }

  lemma ProportionalScales(target: int, price: int, k: int)
    requires k > 0 && price > 0
    ensures k * price > 0 && ((k * target) * SATS) / (k * price) == (target * SATS) / price
  {
    DivScale(target * SATS, price, k);
    assert k * (target * SATS) == (k * target) * SATS;
  }

  lemma SnapScales(gap: int, price: int, units: int, k: int)
    requires k > 0
    ensures gap * (k * price) * 100 < (k * units) * SATS <==> gap * price * 100 < units * SATS
  {
    assert gap * (k * price) * 100 == k * (gap * price * 100);
    assert (k * units) * SATS == k * (units * SATS);
    MulOrder(units * SATS, gap * price * 100, k);
  }

  lemma FeeScales(delta: int, price: int, k: int)
    requires k > 0 && price > 0
    ensures k * price > 0 && ConversionFee(k * delta, k * price) == ConversionFee(delta, price)
  {
    var rate := (if delta > 0 then 99 else 100) * price;
    MulOrder(delta, 0, k);
    AbsScales(delta, k);
    DivScale(Abs(delta) * SATS, rate, k);
    assert k * (Abs(delta) * SATS) == Abs(k * delta) * SATS;
    assert k * rate == (if k * delta > 0 then 99 else 100) * (k * price);
  }

  lemma AbsScales(x: int, k: int)
    requires k > 0
    ensures Abs(k * x) == k * Abs(x)
  {
    MulOrder(x, 0, k);
    MulOrder(0, x, k);
  }

  lemma DecisionScales(target: int, backing: int, price: int, units: int, k: int)
    requires k > 0 && target >= 0 && backing >= 0 && price > 0
    ensures SettlementDecision(k * target, backing, k * price, k * units)
         == SettlementDecision(target, backing, price, units)
  {
    var drift := Drift(target, backing, price);
    DriftScales(target, backing, price, k);
    AbsScales(drift, k);
    MulOrder(drift, 0, k);
    MulOrder(0, price, k);
    MulOrder(0, target, k);
    DivScale(Abs(drift), price, k);
    ToleranceScales(Abs(drift), target, units, k);
    hide Drift, Abs;
  }

  lemma DriftScales(target: int, backing: int, price: int, k: int)
    ensures Drift(k * target, backing, k * price) == k * Drift(target, backing, price)
  {
    assert backing * (k * price) == k * (backing * price);
    assert (k * target) * SATS == k * (target * SATS);
  }

  lemma ToleranceScales(absolute: int, target: int, units: int, k: int)
    requires k > 0
    ensures k * absolute < ((k * units) * SATS) / 4 <==> absolute < (units * SATS) / 4
    ensures (k * absolute) * 1000 < (k * target) * SATS <==> absolute * 1000 < target * SATS
  {
    assert (units * SATS) / 4 == units * (SATS / 4);
    assert (k * units) * (SATS / 4) == k * (units * (SATS / 4));
    assert ((k * units) * SATS) / 4 == (k * units) * (SATS / 4);
    MulOrder(units * (SATS / 4), absolute, k);
    assert (k * absolute) * 1000 == k * (absolute * 1000);
    assert (k * target) * SATS == k * (target * SATS);
    MulOrder(target * SATS, absolute * 1000, k);
  }

  /**
   * Between two accepted increases of a position every target is accepted: the fee and the backing only
   * rise with the target, and a backing that the fresh allocation rounds up keeps being rounded up.
   */
  lemma IncreasesAcceptedBetween(currentTarget: int, currentBacking: int, low: int, mid: int, high: int, price: int,
                                 spendable: int, receiver: int, units: int)
    requires currentTarget < low <= mid <= high
    requires QuoteAllocation(currentTarget, currentBacking, low, price, spendable, receiver, units).Ok?
    requires QuoteAllocation(currentTarget, currentBacking, high, price, spendable, receiver, units).Ok?
    ensures QuoteAllocation(currentTarget, currentBacking, mid, price, spendable, receiver, units).Ok?
  {
    FeeAndBackingRise(currentTarget, currentBacking, low, mid, price);
    FeeAndBackingRise(currentTarget, currentBacking, mid, high, price);
    DivUnique(0, price, 0);
    var gapLow := receiver - ConversionFee(low - currentTarget, price) - Proportional(currentTarget, currentBacking, low, price);
    var gapMid := receiver - ConversionFee(mid - currentTarget, price) - Proportional(currentTarget, currentBacking, mid, price);
    MulOrder(gapMid, gapLow, price);
    DivBounds(low * SATS, price);
    hide ConversionFee;
  }

  function Proportional(currentTarget: int, currentBacking: int, target: int, price: int): int
    requires price > 0
  {
    currentBacking + (target * SATS) / price - (currentTarget * SATS) / price
  }

  lemma FeeAndBackingRise(currentTarget: int, currentBacking: int, a: int, b: int, price: int)
    requires price > 0 && currentTarget < a <= b
    ensures ConversionFee(a - currentTarget, price) <= ConversionFee(b - currentTarget, price)
    ensures Proportional(currentTarget, currentBacking, a, price) <= Proportional(currentTarget, currentBacking, b, price)
  {
    DivMonotone(a * SATS, b * SATS, price);
    DivMonotone((a - currentTarget) * SATS, (b - currentTarget) * SATS, 99 * price);
  }

  // ----- the binary searches -----

  /** What `while (low <= high)` keeps in `best` when `accepts` decides each midpoint. */
  function SearchMax(accepts: int -> bool, low: int, high: int, best: int): int
    decreases high - low + 1
  {
    if low > high then best
    else
      var mid := (low + high) / 2;
      if accepts(mid) then SearchMax(accepts, mid + 1, high, mid) else SearchMax(accepts, low, mid - 1, best)
  }

  ghost predicate DownwardClosed(accepts: int -> bool, low: int, high: int)
  {
    forall i, j | low <= i <= j <= high && accepts(j) :: accepts(i)
  }

  ghost predicate IsGreatest(accepts: int -> bool, low: int, high: int, x: int)
  {
    && low <= x <= high
    && accepts(x)
    && forall j | x < j <= high :: !accepts(j)
  }

  lemma {:induction false} SearchFindsGreatest(accepts: int -> bool, low: int, high: int, best: int)
    requires DownwardClosed(accepts, low, high)
    ensures var r := SearchMax(accepts, low, high, best);
            if low <= high && accepts(low) then IsGreatest(accepts, low, high, r)
            else r == best && forall j | low <= j <= high :: !accepts(j)
    decreases high - low + 1
  {
    if low <= high {
      var mid := (low + high) / 2;
      if accepts(mid) {
        SearchFindsGreatest(accepts, mid + 1, high, mid);
        assert accepts(low);
      } else {
        SearchFindsGreatest(accepts, low, mid - 1, best);
        assert forall j | mid <= j <= high :: !accepts(j);
      }
    }
  }

  function FreshAccepts(priceCents: int, spendable: int, receiver: int): int -> bool
  {
    target => QuoteAllocation(0, 0, target, priceCents, spendable, receiver, 100).Ok?
  }

  /** The acceptance test for a fresh allocation in closed form. */
  lemma FreshAcceptsIff(target: int, priceCents: int, spendable: int, receiver: int)
    requires priceCents > 0 && target > 0
    ensures var fee := (target * SATS) / (99 * priceCents);
            var proportional := (target * SATS) / priceCents;
            FreshAccepts(priceCents, spendable, receiver)(target)
            <==> spendable > 0 && fee <= spendable && 0 < receiver - fee && proportional <= receiver - fee
                 && (proportional > 0 || (receiver - fee) * priceCents < SATS)
  {
    assert 0 / priceCents == 0 by { DivUnique(0, priceCents, 0); }
    DivBounds(target * SATS, priceCents);
  }

  /** While one cent is worth at least one satoshi, every target below an accepted one is accepted. */
  lemma FreshDownwardClosed(priceCents: int, spendable: int, receiver: int, high: int)
    requires 0 < priceCents <= SATS
    ensures DownwardClosed(FreshAccepts(priceCents, spendable, receiver), 1, high)
  {
    var accepts := FreshAccepts(priceCents, spendable, receiver);
    forall i, j | 1 <= i <= j <= high && accepts(j)
      ensures accepts(i)
    {
      FreshAcceptsIff(i, priceCents, spendable, receiver);
      FreshAcceptsIff(j, priceCents, spendable, receiver);
      DivMonotone(i * SATS, j * SATS, priceCents);
      DivMonotone(i * SATS, j * SATS, 99 * priceCents);
      DivMonotone(priceCents, i * SATS, priceCents);
      DivUnique(priceCents, priceCents, 1);
    }
  }

  /** The search returns the greatest accepted target of its range, or zero when there is none. */
  ghost predicate SearchIsRight(accepts: int -> bool, high: int)
  {
    var r := SearchMax(accepts, 1, high, 0);
    if r == 0 then forall j | 1 <= j <= high :: !accepts(j) else IsGreatest(accepts, 1, high, r)
  }

  /** The end of the range that the conversion of a first receive searches. */
  function FirstHigh(receiver: int, priceCents: int): int { (receiver * priceCents) / SATS }

  /**
   * When the search finds the greatest accepted target of that range. While a cent is worth at least a satoshi it
   * always does. Above that price it can fail only in a channel of one or two satoshis.
   */
  predicate FirstSearchable(priceCents: int, spendable: int, receiver: int)
  {
    || priceCents <= SATS
    || spendable <= 0
    || receiver <= 0
    || receiver >= 3
    || (receiver == 1 && priceCents % SATS != 0)
    || (receiver == 2 && (priceCents % SATS == 0 || 2 * (priceCents % SATS) >= SATS))
  }

  /** The smallest target worth a whole satoshi: the price in satoshis, rounded up. */
  function FirstWorthASat(priceCents: int): int { (priceCents - 1) / SATS + 1 }

  /**
   * Above one satoshi to the cent every target below the first one worth a satoshi is refused, and it
   * and those up to its double cost no fee and less than three satoshis of backing.
   */
  lemma AcceptedAbovePar(target: int, priceCents: int, spendable: int, receiver: int)
    requires priceCents > SATS && spendable > 0 && receiver > 0 && target > 0
    ensures var first := FirstWorthASat(priceCents);
            && first >= 2
            && (target < first ==> !FreshAccepts(priceCents, spendable, receiver)(target))
            && (first <= target <= 2 * first - 1 ==>
                  (FreshAccepts(priceCents, spendable, receiver)(target) <==> (target * SATS) / priceCents <= receiver)
                  && 1 <= (target * SATS) / priceCents <= 2)
  {
    var first := FirstWorthASat(priceCents);
    DivBounds(priceCents - 1, SATS);
    assert priceCents <= first * SATS < priceCents + SATS;
    FreshAcceptsIff(target, priceCents, spendable, receiver);
    if target < first {
      DivUnique(target * SATS, priceCents, 0);
      DivUnique(target * SATS, 99 * priceCents, 0);
      MulOrder(1, receiver, priceCents);
    } else if target <= 2 * first - 1 {
      DivUnique(target * SATS, 99 * priceCents, 0);
      DivUnique(target * SATS, priceCents, if target * SATS < 2 * priceCents then 1 else 2);
    }
  }

  lemma FirstIsAccepted(priceCents: int, spendable: int, receiver: int)
    requires priceCents > SATS && spendable > 0 && receiver > 0
    ensures FreshAccepts(priceCents, spendable, receiver)(FirstWorthASat(priceCents))
  {
    var first := FirstWorthASat(priceCents);
    AcceptedAbovePar(first, priceCents, spendable, receiver);
    DivBounds(priceCents - 1, SATS);
    DivUnique(first * SATS, priceCents, 1);
    hide FreshAccepts;
  }

  /** From the first target worth a satoshi upwards, every target below an accepted one is accepted. */
  lemma ClosedAbovePar(priceCents: int, spendable: int, receiver: int, high: int)
    requires priceCents > SATS && spendable > 0 && receiver > 0
    ensures DownwardClosed(FreshAccepts(priceCents, spendable, receiver), FirstWorthASat(priceCents), high)
  {
    hide QuoteAllocation, FirstWorthASat;
    var first := FirstWorthASat(priceCents);
    var accepts := FreshAccepts(priceCents, spendable, receiver);
    FirstIsAccepted(priceCents, spendable, receiver);
    AcceptedAbovePar(1, priceCents, spendable, receiver);
    forall i, j | first <= i <= j <= high && accepts(j) ensures accepts(i) {
      IncreasesAcceptedBetween(0, 0, first, i, j, priceCents, spendable, receiver, 100);
    }
  }

  /**
   * A search over targets that are refused below `first`, accepted from it to 2 * first - 1 and closed above it probes
   * nothing below `first` when its range reaches 2 * first - 1, and so ends at the greatest.
   */
  lemma {:induction false} SearchSkipsGap(accepts: int -> bool, first: int, high: int)
    requires first >= 1 && high >= 2 * first - 1
    requires forall i | first <= i <= 2 * first - 1 :: accepts(i)
    requires DownwardClosed(accepts, first, high)
    ensures IsGreatest(accepts, 1, high, SearchMax(accepts, 1, high, 0))
    decreases high
  {
    var mid := (1 + high) / 2;
    assert mid >= first;
    if accepts(mid) {
      SearchFindsGreatest(accepts, mid + 1, high, mid);
    } else {
      SearchSkipsGap(accepts, first, mid - 1);
      assert forall j | mid <= j <= high :: !accepts(j);
    }
  }

  /** A range that ends one short of 2 * first - 1 is probed first just below `first`, and nothing is found. */
  lemma SearchFallsBelow(accepts: int -> bool, first: int, high: int)
    requires forall i | 1 <= i < first :: !accepts(i)
    requires 1 <= high && (1 + high) / 2 < first
    ensures SearchMax(accepts, 1, high, 0) == 0
  {
    var mid := (1 + high) / 2;
    SearchFindsGreatest(accepts, 1, mid - 1, 0);
  }

  /**
   * Exactly when the search of a first conversion is right on the range it is given: a condition on the
   * price and the channel that a caller can check beforehand.
   */
  lemma FirstSearchRightIff(priceCents: int, spendable: int, receiver: int)
    requires priceCents > 0
    ensures SearchIsRight(FreshAccepts(priceCents, spendable, receiver), FirstHigh(receiver, priceCents))
            <==> FirstSearchable(priceCents, spendable, receiver)
  {
    if priceCents <= SATS || spendable <= 0 || receiver <= 0 {
      var accepts, high := FreshAccepts(priceCents, spendable, receiver), FirstHigh(receiver, priceCents);
      ClosedWhen(priceCents, spendable, receiver, high);
      SearchFindsGreatest(accepts, 1, high, 0);
    } else if receiver >= 3 || (receiver == 2 && (priceCents % SATS == 0 || 2 * (priceCents % SATS) >= SATS)) {
      SearchRightAbovePar(priceCents, spendable, receiver);
    } else {
      SearchInTinyChannel(priceCents, spendable, receiver);
    }
  }

  lemma SearchRightAbovePar(priceCents: int, spendable: int, receiver: int)
    requires priceCents > SATS && spendable > 0
    requires receiver >= 3 || (receiver == 2 && (priceCents % SATS == 0 || 2 * (priceCents % SATS) >= SATS))
    ensures SearchIsRight(FreshAccepts(priceCents, spendable, receiver), FirstHigh(receiver, priceCents))
  {
    var accepts, high := FreshAccepts(priceCents, spendable, receiver), FirstHigh(receiver, priceCents);
    var first := FirstWorthASat(priceCents);
    forall i | first <= i <= 2 * first - 1 ensures accepts(i) {
      AcceptedAbovePar(i, priceCents, spendable, receiver);
    }
    assert high >= 2 * first - 1 by { RangeReachesDouble(priceCents, receiver); }
    ClosedAbovePar(priceCents, spendable, receiver, high);
    SearchSkipsGap(accepts, first, high);
    hide FreshAccepts;
  }

  lemma RangeReachesDouble(priceCents: int, receiver: int)
    requires priceCents > SATS
    requires receiver >= 3 || (receiver == 2 && (priceCents % SATS == 0 || 2 * (priceCents % SATS) >= SATS))
    ensures FirstHigh(receiver, priceCents) >= 2 * FirstWorthASat(priceCents) - 1 >= 1
  {
    var first := FirstWorthASat(priceCents);
    DivBounds(priceCents - 1, SATS);
    DivBounds(priceCents, SATS);
    var whole, rest := priceCents / SATS, priceCents % SATS;
    assert priceCents == SATS * whole + rest;
    if receiver >= 3 {
      MulOrder(3, receiver, priceCents);
      DivMonotone(3 * priceCents, receiver * priceCents, SATS);
      DivIsGreatest(2 * first - 1, 3 * priceCents, SATS);
    } else if rest == 0 {
      DivUnique(priceCents - 1, SATS, whole - 1);
      DivIsGreatest(2 * first - 1, 2 * priceCents, SATS);
    } else {
      DivUnique(priceCents - 1, SATS, whole);
      DivIsGreatest(2 * first - 1, 2 * priceCents, SATS);
    }
  }

  /** In a channel of one or two satoshis the range ends before the double of the first target worth a satoshi. */
  lemma TinyRange(priceCents: int, receiver: int)
    requires priceCents > SATS
    requires receiver == 1 || (receiver == 2 && 0 < 2 * (priceCents % SATS) < SATS)
    ensures var high, first := FirstHigh(receiver, priceCents), FirstWorthASat(priceCents);
            && 1 <= high && (1 + high) / 2 < first
            && (first <= high <==> receiver == 2 || priceCents % SATS == 0)
  {
    var whole, rest := priceCents / SATS, priceCents % SATS;
    DivBounds(priceCents, SATS);
    assert priceCents == SATS * whole + rest;
    DivUnique(priceCents - 1, SATS, if rest == 0 then whole - 1 else whole);
    DivUnique(receiver * priceCents, SATS, receiver * whole);
  }

  /** There the search finds nothing, and that is right only when there is nothing in its range. */
  lemma SearchInTinyChannel(priceCents: int, spendable: int, receiver: int)
    requires priceCents > SATS && spendable > 0
    requires receiver == 1 || (receiver == 2 && 0 < 2 * (priceCents % SATS) < SATS)
    ensures var accepts, high := FreshAccepts(priceCents, spendable, receiver), FirstHigh(receiver, priceCents);
            && SearchMax(accepts, 1, high, 0) == 0
            && (SearchIsRight(accepts, high) <==> receiver == 1 && priceCents % SATS != 0)
            && (!SearchIsRight(accepts, high) ==> 1 <= FirstWorthASat(priceCents) <= high
                                                  && accepts(FirstWorthASat(priceCents)))
  {
    hide FirstHigh, FirstWorthASat, QuoteAllocation, SearchMax;
    var accepts, high := FreshAccepts(priceCents, spendable, receiver), FirstHigh(receiver, priceCents);
    var first := FirstWorthASat(priceCents);
    TinyRange(priceCents, receiver);
    FirstIsAccepted(priceCents, spendable, receiver);
    AcceptedAbovePar(1, priceCents, spendable, receiver);
    forall i | 1 <= i < first ensures !accepts(i) {
      AcceptedAbovePar(i, priceCents, spendable, receiver);
    }
    hide FreshAccepts;
    SearchFallsBelow(accepts, first, high);
  }

  /**
   * The accepted first targets are downward closed exactly when a cent is worth at least a satoshi or the
   * channel can take nothing. That is more than the search needs, and less than a search over any range would.
   */
  lemma FreshClosedIff(priceCents: int, spendable: int, receiver: int)
    requires priceCents > 0
    ensures (forall high :: DownwardClosed(FreshAccepts(priceCents, spendable, receiver), 1, high))
            <==> priceCents <= SATS || spendable <= 0 || receiver <= 0
    ensures (forall high :: SearchIsRight(FreshAccepts(priceCents, spendable, receiver), high))
            <==> priceCents <= SATS || spendable <= 0 || receiver <= 0
  {
    var accepts := FreshAccepts(priceCents, spendable, receiver);
    if priceCents <= SATS || spendable <= 0 || receiver <= 0 {
      forall high ensures DownwardClosed(accepts, 1, high) && SearchIsRight(accepts, high) {
        ClosedWhen(priceCents, spendable, receiver, high);
        SearchFindsGreatest(accepts, 1, high, 0);
      }
    } else {
      var first := FirstWorthASat(priceCents);
      AcceptedAbovePar(first, priceCents, spendable, receiver);
      DivBounds(priceCents - 1, SATS);
      DivUnique(first * SATS, priceCents, 1);
      forall i | 1 <= i < first ensures !accepts(i) {
        AcceptedAbovePar(i, priceCents, spendable, receiver);
      }
      hide FreshAccepts;
      assert !DownwardClosed(accepts, 1, first) by { assert !accepts(1); }
      SearchFallsBelow(accepts, first, 2 * first - 2);
      assert !SearchIsRight(accepts, 2 * first - 2);
    }
  }

  lemma ClosedWhen(priceCents: int, spendable: int, receiver: int, high: int)
    requires priceCents > 0 && (priceCents <= SATS || spendable <= 0 || receiver <= 0)
    ensures DownwardClosed(FreshAccepts(priceCents, spendable, receiver), 1, high)
  {
    if priceCents <= SATS {
      FreshDownwardClosed(priceCents, spendable, receiver, high);
    } else {
      forall j | 1 <= j ensures !FreshAccepts(priceCents, spendable, receiver)(j) {
        FreshAcceptsIff(j, priceCents, spendable, receiver);
        DivBounds(j * SATS, 99 * priceCents);
      }
    }
  }
}
