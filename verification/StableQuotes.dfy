/**
 * What the client may do at one moment: the guards in front of a payment, the
 * quotes for a new target, and the intents that a commit or a tick forms.
 */
module StableQuotes {
  import opened Results
  import opened Arithmetic
  import opened StableTypes
  import opened StableChanges
  import opened StableMath
  import opened StablePayments

  const SYNC_MAX_AGE_MS := 120_000
  const SETTLEMENT_GAP_MS := 120_000
  const MAX_SAFE_INTEGER := 9_007_199_254_740_991

  predicate MaySend(env: Env)
  {
    env.canSend && env.lastSync != 0 && 0 <= env.now - env.lastSync <= SYNC_MAX_AGE_MS
  }

  function ReadyChannel(s: State, provider: string, env: Env): Result<Channel, StableError>
  {
    if env.channel.Ambiguous? then Err(ChannelAmbiguous)
    else if !s.enabled || s.provider != provider || env.channel.Absent? || !env.channel.channel.usable
      then Err(ChannelNotReady)
    else if s.position.Some? && s.position.value.channelId != env.channel.channel.channelId
      then Err(PreviousChannelClosed)
    else Ok(env.channel.channel)
  }

  datatype TradeQuote = TradeQuote(baseline: nat, channelId: Id, targetCents: int, backing: int, fee: int,
                                   price: FeedPrice)

  function Target(s: State): Usd { if s.position.Some? then s.position.value.target else 0 }

  function Allocate(s: State, channel: Channel, price: FeedPrice, targetCents: int): Result<StableMath.Allocation, MathError>
  {
    QuoteAllocation(Target(s), Backing(s), targetCents * CENT, UnitPrice(price),
                    channel.spendableSats, channel.receiverSats, USD_UNITS)
  }

  function Quote(s: State, provider: string, market: Market, env: Env, targetCents: int): Result<TradeQuote, StableError>
  {
    if !MaySend(env) then Err(WaitForSync)
    else
      var channel :- ReadyChannel(s, provider, env);
      var price :- RequirePrice(market, env.now);
      if s.pending.Some? || s.inbox != [] then Err(Busy)
      else match Allocate(s, channel, price, targetCents)
        case Err(_) => Err(Refused(Reason.Allocation))
        case Ok(a) =>
          if targetCents * CENT > Target(s) && channel.inboundSats == 0 then Err(Refused(NoInbound))
          else if targetCents * CENT > MAX_USD_UNITS then Err(Refused(TooLarge))
          else if targetCents * CENT == Target(s) then Err(Refused(SameTarget))
          else Ok(TradeQuote(s.revision, channel.channelId, targetCents, a.backing, a.fee, price))
  }

  /** An accepted quote names a real dollar amount and leaves fee and backing inside the channel. */
  lemma QuoteFits(s: State, provider: string, market: Market, env: Env, targetCents: int)
    ensures match Quote(s, provider, market, env, targetCents)
            case Err(_) => true
            case Ok(q) =>
              && env.channel.Direct?
              && (targetCents * CENT == 0 || CENT <= targetCents * CENT <= MAX_USD_UNITS)
              && targetCents >= 0
              && 0 <= q.fee <= env.channel.channel.spendableSats
              && 0 <= q.backing <= env.channel.channel.receiverSats - q.fee
              && (q.backing == 0 <==> targetCents == 0)
              && q.channelId == env.channel.channel.channelId
              && s.pending.None? && s.inbox == [] && q.baseline == s.revision
  {
    if Quote(s, provider, market, env, targetCents).Ok? {
      AllocationKeepsValue(Target(s), Backing(s), targetCents * CENT,
                           UnitPrice(RequirePrice(market, env.now).value),
                           env.channel.channel.spendableSats, env.channel.channel.receiverSats, USD_UNITS);
      hide QuoteAllocation;
    }
  }

  // ----- the greatest quote -----

  /** The position's target in cents, halves rounded up. */
  function RoundedCents(target: Usd): nat { (target + CENT / 2) / CENT }

  function Accepts(s: State, provider: string, market: Market, env: Env): int -> bool
  {
    cents => Quote(s, provider, market, env, cents).Ok?
  }

  function MaximumHigh(current: nat, receiverSats: nat, priceCents: int): int
  {
    current + (receiverSats * priceCents) / SATS
  }

  /** Once one cent more than the target is accepted, the accepted targets above it are downward closed. */
  lemma QuotesDownwardClosed(s: State, provider: string, market: Market, env: Env, high: int)
    ensures var low := RoundedCents(Target(s)) + 1;
            Quote(s, provider, market, env, low).Ok? ==> DownwardClosed(Accepts(s, provider, market, env), low, high)
  {
    if Quote(s, provider, market, env, RoundedCents(Target(s)) + 1).Ok? {
      var low := RoundedCents(Target(s)) + 1;
      var accepts := Accepts(s, provider, market, env);
      forall i, j | low <= i <= j <= high && accepts(j) ensures accepts(i) {
        var channel := env.channel.channel;
        var unit := UnitPrice(RequirePrice(market, env.now).value);
        IncreasesAcceptedBetween(Target(s), Backing(s), low * CENT, i * CENT, j * CENT, unit,
                                 channel.spendableSats, channel.receiverSats, USD_UNITS);
        hide QuoteAllocation;
      }
    }
  }

  /**
   * What the maximum search returns, as a plain search over quotes: for every price it is the greatest
   * accepted target in its range.
   */
  lemma MaximumIsGreatest(s: State, provider: string, market: Market, env: Env, high: int)
    ensures var low := RoundedCents(Target(s)) + 1;
            var accepts := Accepts(s, provider, market, env);
            accepts(low) ==> IsGreatest(accepts, low, Max(low, high), SearchMax(accepts, low + 1, high, low))
  {
    if Quote(s, provider, market, env, RoundedCents(Target(s)) + 1).Ok? {
      var low := RoundedCents(Target(s)) + 1;
      var accepts := Accepts(s, provider, market, env);
      QuotesDownwardClosed(s, provider, market, env, high);
      SearchFindsGreatest(accepts, low + 1, high, low);
      hide Quote;
    }
  }

  // ----- the first receive -----

  /**
   * A target in whole cents that the search over plain cents accepts gets the same fee and backing
   * from the quote in nano-dollars; only the guards that the search leaves out can still refuse it.
   */
  lemma FirstQuoteAgrees(s: State, provider: string, market: Market, env: Env, targetCents: int)
    requires s.position.None? && s.pending.None? && s.inbox == [] && targetCents > 0 && MaySend(env)
    ensures match (ReadyChannel(s, provider, env), RequirePrice(market, env.now))
            case (Ok(channel), Ok(price)) =>
              var plain := QuoteAllocation(0, 0, targetCents, price.priceCents,
                                           channel.spendableSats, channel.receiverSats, 100);
              plain.Ok? ==>
                Quote(s, provider, market, env, targetCents)
                == (if channel.inboundSats == 0 then Err(Refused(NoInbound))
                    else if targetCents * CENT > MAX_USD_UNITS then Err(Refused(TooLarge))
                    else Ok(TradeQuote(s.revision, channel.channelId, targetCents,
                                       plain.value.backing, plain.value.fee, price)))
            case _ => true
  {
    if ReadyChannel(s, provider, env).Ok? && RequirePrice(market, env.now).Ok? {
      var channel, price := env.channel.channel, RequirePrice(market, env.now).value;
      AllocationScales(0, 0, targetCents, price.priceCents, channel.spendableSats, channel.receiverSats, 100, CENT);
      hide QuoteAllocation;
    }
  }

  // ----- intents -----

  /** Random values of a new intent: the hash of its preimage, and its trade or settlement id. */
  datatype Secrets = Secrets(paymentId: Id, token: Id)

  function Seconds(ms: int): int { ms / 1000 }

  function TradeIntent(channel: Channel, q: TradeQuote, target: Usd, now: int, secrets: Secrets, hash: Payload -> Id): Intent
    requires q.fee >= 0 && q.backing >= 0
  {
    var payload := TradeRequest(channel.channelId, channel.userChannelId, secrets.token, target, q.price.priceCents,
                                Seconds(now));
    var fee := q.fee * 1000;
    Intent(Trade, secrets.paymentId, if fee > 0 then fee else 1, target, q.backing, channel.channelId,
           Some(Correlation(secrets.token, secrets.paymentId, hash(payload))), payload, TRADE_TLV, now, false)
  }

  /** The intent of a commit: the reviewed quote must be the one that the client would give now. */
  function CommitIntent(s: State, provider: string, market: Market, env: Env, q: TradeQuote,
                        secrets: Secrets, hash: Payload -> Id): Result<Intent, StableError>
  {
    var current :- Quote(s, provider, market, env, q.targetCents);
    QuoteFits(s, provider, market, env, q.targetCents);
    if q.baseline != current.baseline || q.channelId != current.channelId || q.fee != current.fee
       || q.backing != current.backing || q.price.observedAt != current.price.observedAt
    then Err(Refused(QuoteChanged))
    else Ok(TradeIntent(env.channel.channel, q, q.targetCents * CENT, env.now, secrets, hash))
  }

  /**
   * A committed trade pays exactly the reviewed fee, or one millisatoshi when there is none, and asks for exactly
   * the reviewed backing, which the channel can hold after the fee; nothing was saved since the review.
   */
  lemma CommitIsWhatWasReviewed(s: State, provider: string, market: Market, env: Env, q: TradeQuote,
                                secrets: Secrets, hash: Payload -> Id)
    ensures match CommitIntent(s, provider, market, env, q, secrets, hash)
            case Err(_) => true
            case Ok(i) =>
              && Applicable(Propose(i), s)
              && i.kind == Trade && i.paymentId == secrets.paymentId
              && q.baseline == s.revision
              && i.target == q.targetCents * CENT && i.target != Target(s)
              && i.amountMsat == Max(q.fee * 1000, 1)
              && i.backing == q.backing
              && env.channel.Direct?
              && i.backing + q.fee <= env.channel.channel.receiverSats
              && q.fee <= env.channel.channel.spendableSats
              && i.correlation == Some(Correlation(secrets.token, i.paymentId, hash(i.payload)))
  {
    if CommitIntent(s, provider, market, env, q, secrets, hash).Ok? {
      QuoteFits(s, provider, market, env, q.targetCents);
    }
  }

  function SettlementIntent(channel: Channel, p: Position, sats: nat, now: int, secrets: Secrets): Intent
    requires sats <= p.backing
  {
    var payload := SettlementNote(secrets.token, channel.channelId, sats * 1000, UserToLsp, p.target,
                                  Seconds(now), Seconds(now) + SETTLEMENT_TTL);
    Intent(Settle, secrets.paymentId, sats * 1000, p.target, p.backing - sats, channel.channelId,
           None, payload, SETTLEMENT_TLV, now, false)
  }

  /** The settlement that a tick pays, if one is due. */
  function TickIntent(s: State, provider: string, market: Market, env: Env, secrets: Secrets)
    : Result<Option<Intent>, StableError>
  {
    if !s.enabled || s.paused || s.position.None? || s.pending.Some? || s.position.value.target == 0 then Ok(None)
    else if !MaySend(env) then Err(WaitForSync)
    else
      var channel :- ReadyChannel(s, provider, env);
      var price :- RequirePrice(market, env.now);
      var p := s.position.value;
      if p.backing > channel.receiverSats || env.now - p.lastSettlementAt < SETTLEMENT_GAP_MS then Ok(None)
      else match SettlementDecision(p.target, p.backing, UnitPrice(price), USD_UNITS)
        case Err(_) => Err(Refused(Reason.Allocation))
        case Ok(d) =>
          if d.action != Pay || d.sats == 0 then Ok(None)
          else if d.sats > channel.spendableSats then Err(WaitForCapacity)
          else if d.sats * 1000 > MAX_SAFE_INTEGER then Err(Refused(TooLarge))
          else
            PaymentLeavesRemainder(p.target, p.backing, UnitPrice(price), USD_UNITS);
            Ok(Some(SettlementIntent(channel, p, d.sats, env.now, secrets)))
  }

  /**
   * A tick pays only what the position holds above its target, never sooner than two minutes after the
   * last settlement, and once paid the position is a fixed point at that price.
   */
  lemma TickPaysTheExcess(s: State, provider: string, market: Market, env: Env, secrets: Secrets)
    requires s.inbox == []
    ensures match TickIntent(s, provider, market, env, secrets)
            case Ok(Some(i)) =>
              && Applicable(Propose(i), s)
              && s.position.Some? && env.channel.Direct? && RequirePrice(market, env.now).Ok?
              && var p, unit := s.position.value, UnitPrice(RequirePrice(market, env.now).value);
              && i.kind == Settle && i.paymentId == secrets.paymentId && !s.paused
              && 0 < i.amountMsat <= env.channel.channel.spendableSats * 1000
              && i.payload.SettlementNote? && i.payload.amountMsat == i.amountMsat && i.payload.expected == p.target
              && i.payload.direction == UserToLsp && i.payload.settlementId == secrets.token
              && p.target * SATS <= i.backing * unit < p.target * SATS + unit
              && SettlementDecision(p.target, i.backing, unit, USD_UNITS) == Ok(Decision(Stable, 0))
              && env.now - p.lastSettlementAt >= SETTLEMENT_GAP_MS
              && p.backing <= env.channel.channel.receiverSats
            case _ => true
  {
    if TickIntent(s, provider, market, env, secrets).Ok?
       && TickIntent(s, provider, market, env, secrets).value.Some? {
      var p, price := s.position.value, RequirePrice(market, env.now).value;
      SettlementIsFixedPoint(p.target, p.backing, price.priceCents);
      hide SettlementDecision;
    }
  }
}
