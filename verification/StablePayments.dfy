/**
 * How the client judges a payment from the inbox: which of its signed records
 * counts, and the change of the saved state that it asks for.
 */
module StablePayments {
  import opened Results
  import opened Arithmetic
  import opened StableTypes
  import opened StableChanges
  import opened StableMath

  const PRICE_MAX_AGE_MS := 60_000
  const PRICE_MAX_AHEAD_MS := 5_000
  const CLOCK_SLACK_SECS := 60

  /** A price that the feed accepts. */
  type FeedPrice = p: Price | 100_000 <= p.priceCents <= MAX_PRICE_CENTS witness Price(100_000, 0)

  /** The price in memory, and whether the last refresh failed. */
  datatype Market = Market(price: Option<FeedPrice>, quarantined: bool)

  function RequirePrice(m: Market, now: int): Result<FeedPrice, StableError>
  {
    if m.price.None? || m.quarantined then Err(NoFreshPrice)
    else
      var age := now - m.price.value.observedAt;
      if age < -PRICE_MAX_AHEAD_MS || age > PRICE_MAX_AGE_MS then Err(NoFreshPrice) else Ok(m.price.value)
  }

  function UnitPrice(p: FeedPrice): (u: int)
    ensures u > 0
  {
    p.priceCents * UNITS_PER_CENT
  }

  datatype Verdict = Skip | Fail(error: StableError) | Take(change: Change)

  function SyncVersion(s: State): nat { if s.position.Some? then s.position.value.syncVersion else 0 }

  /** The backing for a sync that the provider sent on its own. */
  function UnsolicitedBacking(p: Position, expected: Usd, price: FeedPrice, receiver: nat): Option<int>
  {
    if expected < p.target && receiver >= p.backing then None
    else
      var moved := p.backing + (expected * SATS) / UnitPrice(price) - (p.target * SATS) / UnitPrice(price);
      var backing := if expected == 0 then 0 else moved;
      if expected < p.target then
        var missing := if p.backing > receiver then p.backing - receiver else 0;
        if Abs(backing - receiver) > missing / 100 + 2 then None
        else Some(if expected > 0 then receiver else backing)
      else Some(backing)
  }

  function AcceptBacking(paymentId: Id, m: Message, backing: int, receiver: nat): Verdict
    requires m.Sync?
  {
    if backing < 0 || backing > receiver then Fail(WaitForCapacity)
    else Take(Synced(paymentId, m.channelId, m.expected, backing, m.version))
  }

  function JudgeSync(s: State, paymentId: Id, m: Message, receiver: nat, price: Result<FeedPrice, StableError>): Verdict
    requires m.Sync?
  {
    match m.correlation
    case Some(correlation) =>
      if s.pending.None? || s.pending.value.kind != Trade || s.pending.value.correlation != Some(correlation)
         || Abs(s.pending.value.target - m.expected) > 1 then Skip
      else AcceptBacking(paymentId, m, s.pending.value.backing, receiver)
    case None =>
      if s.position.None? || s.pending.Some? || m.expected > s.position.value.target then Skip
      else if price.Err? then Fail(price.error)
      else
        var backing := UnsolicitedBacking(s.position.value, m.expected, price.value, receiver);
        if backing.None? then Skip else AcceptBacking(paymentId, m, backing.value, receiver)
  }

  /** Whether a settlement message is one that the position can take from this payment. */
  predicate SettlementFits(s: State, m: Message, tlv: nat, amountMsat: nat, receivedAt: int)
    requires m.Settlement?
  {
    && tlv == SETTLEMENT_TLV
    && s.position.Some?
    && (s.pending.Some? ==> s.pending.value.kind != Trade)
    && m.direction == LspToUser
    && m.amountMsat == amountMsat
    && Abs(m.expected - s.position.value.target) <= 1
    && m.createdAtSecs <= receivedAt / 1000 + CLOCK_SLACK_SECS
    && receivedAt / 1000 <= m.expiresAtSecs + CLOCK_SLACK_SECS
    && NewSettlement(s.position.value, m.settlementId)
  }

  function JudgeSettlement(s: State, paymentId: Id, m: Message, amountMsat: nat, receiver: nat,
                           price: Result<FeedPrice, StableError>, now: int): Verdict
    requires m.Settlement? && s.position.Some?
  {
    if price.Err? then Fail(price.error)
    else
      var p := s.position.value;
      var backing := ReceivedBacking(p.backing, p.target, UnitPrice(price.value), amountMsat / 1000, receiver);
      if backing.Err? then Fail(Refused(Reason.Allocation))
      else Take(ToppedUp(paymentId, m.settlementId, backing.value, now))
  }

  function JudgeRecord(s: State, e: InboxEntry, r: Record, channel: Channel, market: Market, now: int): Verdict
  {
    if (r.tlv != TRADE_TLV && r.tlv != SETTLEMENT_TLV) || r.message.None? then Skip
    else
      var m := r.message.value;
      if m.channelId != channel.channelId || (s.position.Some? && s.position.value.channelId != channel.channelId)
      then Skip
      else match m
        case Rejected(_, rejects) =>
          if r.tlv != TRADE_TLV || e.amountMsat != 1 || s.pending.None? || s.pending.value.correlation != Some(rejects)
          then Skip else Take(TradeRefused(e.paymentId))
        case Sync(_, _, version, _) =>
          if r.tlv != TRADE_TLV || e.amountMsat != 1 || version <= SyncVersion(s) then Skip
          else JudgeSync(s, e.paymentId, m, channel.receiverSats, RequirePrice(market, now))
        case Settlement(_, _, _, _, _, _, _) =>
          if !SettlementFits(s, m, r.tlv, e.amountMsat, e.receivedAt) then Skip
          else JudgeSettlement(s, e.paymentId, m, e.amountMsat, channel.receiverSats, RequirePrice(market, now), now)
  }

  /** The verdict of the first record that is not skipped. */
  function JudgeRecords(s: State, e: InboxEntry, records: seq<Record>, channel: Channel, market: Market, now: int): Verdict
  {
    if records == [] then Skip
    else
      var first := JudgeRecord(s, e, records[0], channel, market, now);
      if first != Skip then first else JudgeRecords(s, e, records[1..], channel, market, now)
  }

  /** Whether a received payment concerns the client at all. */
  predicate HandlesReceived(s: State, paymentId: Id, records: seq<Record>)
  {
    && s.enabled
    && ((s.firstReceive.Some? && s.firstReceive.value.received.None? && paymentId in s.firstReceive.value.hashes)
        || exists r | r in records :: r.tlv == TRADE_TLV || r.tlv == SETTLEMENT_TLV)
  }

  predicate HandlesOutcome(s: State, paymentId: Id)
  {
    s.enabled && s.pending.Some? && s.pending.value.paymentId == paymentId
  }

  /** What one inbox entry asks for. */
  function Judge(s: State, e: InboxEntry, env: Env, market: Market): Verdict
  {
    if !HandlesReceived(s, e.paymentId, e.records) || KnownPayment(s, e.paymentId) then Skip
    else match env.channel
      case Ambiguous => Fail(ChannelAmbiguous)
      case Absent => Skip
      case Direct(channel) =>
        if channel.channelId !in e.channelIds then Skip
        else JudgeRecords(s, e, e.records, channel, market, env.now)
  }

  /** The receiver side of a channel as the judge saw it. */
  function ReceiverSats(env: Env): nat { if env.channel.Direct? then env.channel.channel.receiverSats else 0 }

  ghost predicate PendingTyped(s: State)
  {
    s.pending.Some? ==> (s.pending.value.kind == Trade <==> s.pending.value.correlation.Some?)
  }

  /**
   * Every change the judge asks for is one the state can take, a sync it accepts leaves the backing within the
   * receiver's balance, and a top-up adds at most the payment.
   */
  ghost predicate SoundVerdict(s: State, e: InboxEntry, receiver: nat, v: Verdict)
  {
    v.Take? ==>
      && Applicable(v.change, s)
      && (v.change.TradeRefused? || v.change.Synced? || v.change.ToppedUp?)
      && (v.change.Synced? ==> v.change.paymentId == e.paymentId && v.change.backing <= receiver)
      && (v.change.TradeRefused? ==> v.change.paymentId == e.paymentId)
      && (v.change.ToppedUp? ==>
            && v.change.paymentId == e.paymentId
            && s.position.value.backing <= v.change.backing <= receiver
            && v.change.backing <= s.position.value.backing + e.amountMsat / 1000)
  }

  lemma RecordVerdictIsSound(s: State, e: InboxEntry, r: Record, channel: Channel, market: Market, now: int)
    requires PendingTyped(s) && InInbox(s.inbox, e.paymentId) && !KnownPayment(s, e.paymentId)
    requires s.pending.Some? ==> s.pending.value.kind == Trade
    ensures SoundVerdict(s, e, channel.receiverSats, JudgeRecord(s, e, r, channel, market, now))
  {
    hide UnsolicitedBacking;
    if r.message.Some? && r.message.value.Settlement? && s.position.Some? && RequirePrice(market, now).Ok? {
      var p, price := s.position.value, UnitPrice(RequirePrice(market, now).value);
      if ReceivedBacking(p.backing, p.target, price, e.amountMsat / 1000, channel.receiverSats).Ok? {
        ReceivedBackingIsGreatest(p.backing, p.target, price, e.amountMsat / 1000, channel.receiverSats, USD_UNITS);
      }
    }
    hide ReceivedBacking;
  }

  lemma SkipIsSound(s: State, e: InboxEntry, receiver: nat)
    ensures SoundVerdict(s, e, receiver, Skip)
  {
  }

  lemma {:induction false} VerdictIsSound(s: State, e: InboxEntry, records: seq<Record>, channel: Channel,
                                          market: Market, now: int)
    requires PendingTyped(s) && InInbox(s.inbox, e.paymentId) && !KnownPayment(s, e.paymentId)
    requires s.pending.Some? ==> s.pending.value.kind == Trade
    ensures SoundVerdict(s, e, channel.receiverSats, JudgeRecords(s, e, records, channel, market, now))
    decreases records
  {
    hide JudgeRecord, SoundVerdict;
    if records == [] {
      SkipIsSound(s, e, channel.receiverSats);
    } else {
      RecordVerdictIsSound(s, e, records[0], channel, market, now);
      VerdictIsSound(s, e, records[1..], channel, market, now);
    }
  }

  lemma JudgeIsSound(s: State, e: InboxEntry, env: Env, market: Market)
    requires PendingTyped(s) && e in s.inbox
    requires s.pending.Some? ==> s.pending.value.kind == Trade
    ensures SoundVerdict(s, e, ReceiverSats(env), Judge(s, e, env, market))
  {
    hide JudgeRecords, SoundVerdict, HandlesReceived;
    SkipIsSound(s, e, ReceiverSats(env));
    assert SoundVerdict(s, e, ReceiverSats(env), Fail(ChannelAmbiguous)) by {
      FailIsSound(s, e, ReceiverSats(env), ChannelAmbiguous);
    }
    if !KnownPayment(s, e.paymentId) && env.channel.Direct? {
      VerdictIsSound(s, e, e.records, env.channel.channel, market, env.now);
    }
  }

  lemma FailIsSound(s: State, e: InboxEntry, receiver: nat, error: StableError)
    ensures SoundVerdict(s, e, receiver, Fail(error))
  {
  }

  /**
   * A sync that the provider sends on its own raises nothing. One that keeps the target keeps the backing. One that
   * lowers it does so only when satoshis have left the channel, and it writes off dollars worth those satoshis,
   * to within one percent and three satoshis.
   */
  lemma UnsolicitedSyncOnlyReconciles(p: Position, expected: Usd, price: FeedPrice, receiver: nat)
    requires expected <= p.target
    requires UnsolicitedBacking(p, expected, price, receiver).Some?
    ensures var b := UnsolicitedBacking(p, expected, price, receiver).value;
            var left := p.backing - receiver;
            && (expected == p.target ==> b == if expected == 0 then 0 else p.backing)
            && (expected < p.target ==> left > 0 && 0 <= b)
            && (0 < expected < p.target ==>
                  && b == receiver
                  && (left - left / 100 - 3) * UnitPrice(price)
                     < (p.target - expected) * SATS
                     < (left + left / 100 + 3) * UnitPrice(price))
            && (0 == expected < p.target ==> b == 0 && receiver <= left / 100 + 2)
  {
    var unit := UnitPrice(price);
    var up, down := (expected * SATS) / unit, (p.target * SATS) / unit;
    var left := p.backing - receiver;
    DivBounds(expected * SATS, unit);
    DivBounds(p.target * SATS, unit);
    if 0 < expected < p.target {
      assert Abs(p.backing + up - down - receiver) <= left / 100 + 2;
      MulOrder(left - left / 100 - 2, down - up, unit);
      MulOrder(down - up, left + left / 100 + 2, unit);
      WriteOffBounds(p.target * SATS, expected * SATS, unit, left - left / 100 - 2, left + left / 100 + 2);
    }
  }

  lemma WriteOffBounds(a: int, b: int, unit: int, low: int, high: int)
    requires unit > 0 && low <= a / unit - b / unit <= high
    ensures (low - 1) * unit < a - b < (high + 1) * unit
  {
    DivBounds(a, unit);
    DivBounds(b, unit);
    var d := a / unit - b / unit;
    assert unit * (a / unit) - unit * (b / unit) == d * unit;
    assert d * unit - unit < a - b < d * unit + unit;
    assert low * unit <= d * unit <= high * unit by {
      MulOrder(low, d, unit);
      MulOrder(d, high, unit);
    }
  }
}
