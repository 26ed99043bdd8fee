/**
 * What the user is promised about payments, as relations between the saved state before and after an operation.
 * Nothing here refers to the decisions that the client takes in between, so these relations
 * are an independent reading of what its methods do.
 */
module StablePromises {
  import opened Results
  import opened Arithmetic
  import opened StableTypes
  import opened StableStore
  import opened StableChanges
  import opened StableMath
  import opened StablePayments
  import opened StableQuotes
  import opened StableOperations

  /** Besides the revision only the position and the pending intent may differ. */
  ghost predicate MoneyOnly(s: State, t: State)
  {
    t == s.(revision := s.revision + 1, position := t.position, pending := t.pending)
  }

  // ----- LDK's verdict on an outgoing payment -----

  /** A paid settlement debits what it carried, a paid trade stays pending, and a failed payment leaves nothing behind. */
  ghost predicate OutcomeTold(s: State, sent: bool, now: int, t: State)
    requires s.pending.Some?
  {
    && MoneyOnly(s, t)
    && if !sent then t.pending.None? && t.position == s.position
       else if s.pending.value.kind == Trade then
         t.pending == Some(s.pending.value.(sent := true)) && t.position == s.position
       else
         && t.pending.None? && s.position.Some? && t.position.Some?
         && t.position.value.backing == s.position.value.backing - s.pending.value.amountMsat / 1000
         && t.position.value == s.position.value.(backing := t.position.value.backing, lastSettlementAt := now)
  }

  // ----- the records of a received payment -----

  /** A price that is neither quarantined, nor older than a minute, nor more than five seconds ahead. */
  predicate Priced(market: Market, now: int)
  {
    market.price.Some? && !market.quarantined && -5_000 <= now - market.price.value.observedAt <= 60_000
  }

  /** Nano-dollars to the bitcoin. */
  function Worth(market: Market): (unit: int)
    requires market.price.Some?
    ensures unit > 0
  {
    market.price.value.priceCents * CENT
  }

  /** The message is about the provider's channel, and so is the position. */
  predicate ForUs(s: State, channel: Channel, m: Message)
  {
    m.channelId == channel.channelId && (s.position.Some? ==> s.position.value.channelId == m.channelId)
  }

  /** A protocol message comes with a payment of one millisatoshi. */
  predicate Signal(s: State, e: InboxEntry, channel: Channel, r: Record)
  {
    r.tlv == TRADE_TLV && e.amountMsat == 1 && r.message.Some? && ForUs(s, channel, r.message.value)
  }

  /** The provider refuses the pending trade. */
  predicate Refuses(s: State, e: InboxEntry, channel: Channel, r: Record)
  {
    && Signal(s, e, channel, r) && r.message.value.Rejected?
    && s.pending.Some? && s.pending.value.correlation == Some(r.message.value.rejects)
  }

  /** A sync newer than any the position has seen. */
  predicate NewSync(s: State, e: InboxEntry, channel: Channel, r: Record)
  {
    && Signal(s, e, channel, r) && r.message.value.Sync?
    && r.message.value.version > if s.position.Some? then s.position.value.syncVersion else 0
  }

  /** The provider acknowledges the pending trade, at its target to within a nano-dollar. */
  predicate Acknowledges(s: State, e: InboxEntry, channel: Channel, r: Record)
  {
    && NewSync(s, e, channel, r) && r.message.value.correlation.Some?
    && s.pending.Some? && s.pending.value.kind == Trade
    && s.pending.value.correlation == r.message.value.correlation
    && -1 <= s.pending.value.target - r.message.value.expected <= 1
  }

  /** The provider reports a target, not above the present one, on its own. */
  predicate Reports(s: State, e: InboxEntry, channel: Channel, r: Record)
  {
    && NewSync(s, e, channel, r) && r.message.value.correlation.None?
    && s.position.Some? && s.pending.None? && r.message.value.expected <= s.position.value.target
  }

  /** Satoshis have left the channel, and the reported loss of target is worth them, to within one percent and two. */
  predicate Explained(p: Position, expected: Usd, unit: int, receiver: nat)
    requires unit > 0
  {
    var left := p.backing - receiver;
    && left > 0
    && var kept := if expected == 0 then 0 else p.backing + (expected * SATS) / unit - (p.target * SATS) / unit;
       -(left / 100 + 2) <= kept - receiver <= left / 100 + 2
  }

  /** The provider pays a settlement that this payment carries and the position has not counted yet. */
  predicate Credits(s: State, e: InboxEntry, channel: Channel, r: Record)
  {
    && r.tlv == SETTLEMENT_TLV && r.message.Some? && ForUs(s, channel, r.message.value) && r.message.value.Settlement?
    && s.position.Some? && s.pending.None?
    && var m, p := r.message.value, s.position.value;
    && m.direction == LspToUser && m.amountMsat == e.amountMsat
    && -1 <= m.expected - p.target <= 1
    && m.createdAtSecs - 60 <= e.receivedAt / 1000 <= m.expiresAtSecs + 60
    && forall id | id in p.receipts :: p.receipts[id] != SettlementReceipt(m.settlementId)
  }

  /** The record asks something of the state. */
  predicate Concerns(s: State, e: InboxEntry, channel: Channel, market: Market, now: int, r: Record)
  {
    || Refuses(s, e, channel, r)
    || Acknowledges(s, e, channel, r)
    || Credits(s, e, channel, r)
    || (Reports(s, e, channel, r)
        && (Priced(market, now) && r.message.value.expected < s.position.value.target ==>
              Explained(s.position.value, r.message.value.expected, Worth(market), channel.receiverSats)))
  }

  /** What it asks can be done now: there is a fresh price where one is needed, and the channel holds the new backing. */
  predicate Possible(s: State, e: InboxEntry, channel: Channel, market: Market, now: int, r: Record)
  {
    && (Acknowledges(s, e, channel, r) ==> s.pending.value.backing <= channel.receiverSats)
    && (Credits(s, e, channel, r) ==>
          Priced(market, now) && s.position.value.backing <= channel.receiverSats && e.amountMsat >= 1000)
    && (Reports(s, e, channel, r) ==>
          && Priced(market, now)
          && (0 < r.message.value.expected == s.position.value.target ==>
                s.position.value.backing <= channel.receiverSats))
  }

  // ----- what they do -----

  /** The position after an acknowledgement or a report: the message's target and version, on the receipts of the payment. */
  ghost predicate Synchronised(s: State, e: InboxEntry, m: Message, p: Position)
    requires m.Sync?
  {
    && p.channelId == m.channelId && p.target == m.expected && p.syncVersion == m.version
    && p.lastSettlementAt == (if s.position.Some? then s.position.value.lastSettlementAt else 0)
    && p.receipts == (if s.position.Some? then s.position.value.receipts else map[])[e.paymentId := SyncReceipt(m.version)]
  }

  /**
   * The backing that a received settlement leaves: nothing else of the position's amounts moves, the payment and the
   * channel are not exceeded, and no more satoshis would still be worth at most the target.
   */
  ghost predicate FilledUp(p: Position, q: Position, sats: nat, receiver: nat, unit: int)
  {
    var most := Min(p.backing + sats, receiver);
    if p.backing * unit > p.target * SATS - unit then q.backing == p.backing
    else
      && p.backing <= q.backing <= most
      && q.backing * unit <= p.target * SATS
      && forall x | q.backing < x <= most :: x * unit > p.target * SATS
  }

  /** What the record does to the state. */
  ghost predicate Done(s: State, e: InboxEntry, channel: Channel, market: Market, now: int, r: Record, t: State)
    requires Concerns(s, e, channel, market, now, r) && Possible(s, e, channel, market, now, r)
  {
    && MoneyOnly(s, t)
    && t.pending.None?
    && (Refuses(s, e, channel, r) ==> t.position == s.position)
    && (Acknowledges(s, e, channel, r) ==>
          && t.position.Some? && Synchronised(s, e, r.message.value, t.position.value)
          && t.position.value.backing == s.pending.value.backing)
    && (Reports(s, e, channel, r) ==>
          && t.position.Some? && Synchronised(s, e, r.message.value, t.position.value)
          && t.position.value.backing == if r.message.value.expected == 0 then 0
                                         else if r.message.value.expected == s.position.value.target
                                              then s.position.value.backing
                                         else channel.receiverSats)
    && (Credits(s, e, channel, r) ==>
          && t.position.Some?
          && var p, q := s.position.value, t.position.value;
          && q == p.(backing := q.backing, lastSettlementAt := now,
                     receipts := p.receipts[e.paymentId := SettlementReceipt(r.message.value.settlementId)])
          && FilledUp(p, q, e.amountMsat / 1000, channel.receiverSats, Worth(market)))
  }

  /** The payment came over the provider's channel to an enabled client that has not counted it. */
  predicate Reaches(s: State, e: InboxEntry, env: Env)
  {
    && s.enabled && env.channel.Direct? && env.channel.channel.channelId in e.channelIds
    && (s.position.Some? ==> e.paymentId !in s.position.value.receipts)
  }

  /** Record k is the first that concerns the client. */
  ghost predicate IsFirst(s: State, e: InboxEntry, channel: Channel, market: Market, now: int, k: nat)
  {
    && k < |e.records| && Concerns(s, e, channel, market, now, e.records[k])
    && forall j | 0 <= j < k :: !Concerns(s, e, channel, market, now, e.records[j])
  }

  /** ... and what it asks can be done now. */
  ghost predicate CanDo(s: State, e: InboxEntry, channel: Channel, market: Market, now: int, k: nat)
  {
    IsFirst(s, e, channel, market, now, k) && Possible(s, e, channel, market, now, e.records[k])
  }

  /** Some record of the payment asks something of the state. */
  ghost predicate Asks(s: State, e: InboxEntry, env: Env, market: Market)
  {
    Reaches(s, e, env) && (exists k: nat :: IsFirst(s, e, env.channel.channel, market, env.now, k))
  }

  /** The first such record can be done now. */
  ghost predicate CanAnswer(s: State, e: InboxEntry, env: Env, market: Market)
  {
    Reaches(s, e, env) && (exists k: nat :: CanDo(s, e, env.channel.channel, market, env.now, k))
  }

  /** The first such record has been done, and nothing else. */
  ghost predicate Answered(s: State, e: InboxEntry, env: Env, market: Market, t: State)
  {
    && Reaches(s, e, env)
    && (exists k: nat :: CanDo(s, e, env.channel.channel, market, env.now, k)
                         && Done(s, e, env.channel.channel, market, env.now, e.records[k], t))
  }

  /**
   * Entry k has been worked off: what it asks has been done, if it asks anything, and then it has left the inbox. The
   * other entries stay in their order.
   */
  ghost predicate WorkedOff(s: State, k: nat, env: Env, market: Market, t: State)
    requires k < |s.inbox|
  {
    exists mid: State ::
      && (Answered(s, s.inbox[k], env, market, mid) || (mid == s && !Asks(s, s.inbox[k], env, market)))
      && t == mid.(revision := mid.revision + 1, inbox := s.inbox[..k] + s.inbox[k + 1..])
  }

  lemma DropTakesOne(s: State, mid: State, k: nat)
    requires DistinctIds(s.inbox) && k < |s.inbox| && mid.inbox == s.inbox
    ensures Applicable(Drop(s.inbox[k].paymentId), mid)
    ensures Apply(Drop(s.inbox[k].paymentId), mid)
         == mid.(revision := mid.revision + 1, inbox := s.inbox[..k] + s.inbox[k + 1..])
  {
    WithoutTakesOne(s.inbox, k);
    assert s.inbox[k] in mid.inbox;
  }

  // ----- the judge keeps these promises -----

  lemma RefusalJudged(s: State, e: InboxEntry, r: Record, channel: Channel, market: Market, now: int)
    requires r.message.Some? && r.message.value.Rejected?
    requires InInbox(s.inbox, e.paymentId) && PendingTyped(s) && !KnownPayment(s, e.paymentId)
    ensures Judged(s, e, r, channel, market, now)
  {
  }

  /** The verdict on one record is what the promises say. */
  ghost predicate Judged(s: State, e: InboxEntry, r: Record, channel: Channel, market: Market, now: int)
  {
    var concerns := Concerns(s, e, channel, market, now, r);
    match JudgeRecord(s, e, r, channel, market, now)
    case Skip => !concerns
    case Fail(_) => concerns && !Possible(s, e, channel, market, now, r)
    case Take(c) =>
      && concerns && Possible(s, e, channel, market, now, r)
      && Applicable(c, s) && Done(s, e, channel, market, now, r, Apply(c, s))
  }

  lemma PriceRequired(market: Market, now: int)
    ensures RequirePrice(market, now) == if Priced(market, now) then Ok(market.price.value) else Err(NoFreshPrice)
    ensures Priced(market, now) ==> UnitPrice(market.price.value) == Worth(market)
  {
  }

  lemma AnswerJudged(s: State, e: InboxEntry, r: Record, channel: Channel, market: Market, now: int)
    requires r.message.Some? && r.message.value.Sync? && r.message.value.correlation.Some?
    requires InInbox(s.inbox, e.paymentId) && PendingTyped(s) && !KnownPayment(s, e.paymentId)
    ensures Judged(s, e, r, channel, market, now)
  {
  }

  lemma ReportJudged(s: State, e: InboxEntry, r: Record, channel: Channel, market: Market, now: int)
    requires r.message.Some? && r.message.value.Sync? && r.message.value.correlation.None?
    requires InInbox(s.inbox, e.paymentId) && PendingTyped(s) && !KnownPayment(s, e.paymentId)
    ensures Judged(s, e, r, channel, market, now)
  {
    PriceRequired(market, now);
    if Reports(s, e, channel, r) && Priced(market, now) {
      ReportBacking(s.position.value, r.message.value.expected, market.price.value, channel.receiverSats);
    }
    hide RequirePrice, Priced, UnitPrice, Worth, Explained, UnsolicitedBacking;
  }

  /** The backing of a report in the promises' terms. */
  lemma ReportBacking(p: Position, expected: Usd, price: FeedPrice, receiver: nat)
    requires expected <= p.target
    ensures UnsolicitedBacking(p, expected, price, receiver)
         == if expected == p.target then Some(if expected == 0 then 0 else p.backing)
            else if !Explained(p, expected, UnitPrice(price), receiver) then None
            else Some(if expected > 0 then receiver else 0)
  {
  }

  lemma CreditJudged(s: State, e: InboxEntry, r: Record, channel: Channel, market: Market, now: int)
    requires r.message.Some? && r.message.value.Settlement?
    requires InInbox(s.inbox, e.paymentId) && PendingTyped(s) && !KnownPayment(s, e.paymentId)
    requires s.pending.Some? ==> s.pending.value.kind == Trade
    ensures Judged(s, e, r, channel, market, now)
  {
    PriceRequired(market, now);
    if Credits(s, e, channel, r) && Priced(market, now) {
      var p := s.position.value;
      CreditBacking(p, market.price.value, e.amountMsat / 1000, channel.receiverSats);
    }
    hide RequirePrice, Priced, UnitPrice, Worth, ReceivedBacking, FilledUp;
  }

  lemma CreditBacking(p: Position, price: FeedPrice, sats: nat, receiver: nat)
    ensures var unit, r := UnitPrice(price), ReceivedBacking(p.backing, p.target, UnitPrice(price), sats, receiver);
            && (r.Ok? <==> sats > 0 && p.backing <= receiver)
            && (r.Ok? ==> r.value >= p.backing && FilledUp(p, p.(backing := r.value), sats, receiver, unit))
  {
    var unit := UnitPrice(price);
    if ReceivedBacking(p.backing, p.target, unit, sats, receiver).Ok? {
      ReceivedBackingIsGreatest(p.backing, p.target, unit, sats, receiver, USD_UNITS);
    }
  }

  lemma RecordJudged(s: State, e: InboxEntry, r: Record, channel: Channel, market: Market, now: int)
    requires InInbox(s.inbox, e.paymentId) && PendingTyped(s) && !KnownPayment(s, e.paymentId)
    requires s.pending.Some? ==> s.pending.value.kind == Trade
    ensures Judged(s, e, r, channel, market, now)
  {
    if r.message.Some? {
      match r.message.value {
        case Rejected(_, _) => RefusalJudged(s, e, r, channel, market, now);
        case Settlement(_, _, _, _, _, _, _) => CreditJudged(s, e, r, channel, market, now);
        case Sync(_, _, _, correlation) =>
          if correlation.Some? {
            AnswerJudged(s, e, r, channel, market, now);
          } else {
            ReportJudged(s, e, r, channel, market, now);
          }
      }
    }
  }

  /** From record n on, the judge decides by the first record that concerns the client. */
  lemma {:induction false} RecordsJudged(s: State, e: InboxEntry, channel: Channel, market: Market, now: int, n: nat)
    requires n <= |e.records| && forall j | 0 <= j < n :: !Concerns(s, e, channel, market, now, e.records[j])
    requires InInbox(s.inbox, e.paymentId) && PendingTyped(s) && !KnownPayment(s, e.paymentId)
    requires s.pending.Some? ==> s.pending.value.kind == Trade
    ensures match JudgeRecords(s, e, e.records[n..], channel, market, now)
            case Skip => forall k: nat :: !IsFirst(s, e, channel, market, now, k)
            case Fail(_) =>
              && (exists k: nat :: IsFirst(s, e, channel, market, now, k))
              && forall k: nat :: !CanDo(s, e, channel, market, now, k)
            case Take(c) =>
              && Applicable(c, s)
              && exists k: nat :: CanDo(s, e, channel, market, now, k)
                                  && Done(s, e, channel, market, now, e.records[k], Apply(c, s))
    decreases |e.records| - n
  {
    hide Concerns, Possible, Done, JudgeRecord, Apply, Applicable;
    if n < |e.records| {
      RecordJudged(s, e, e.records[n], channel, market, now);
      assert e.records[n..][0] == e.records[n] && e.records[n..][1..] == e.records[n + 1..];
      if Concerns(s, e, channel, market, now, e.records[n]) {
        assert IsFirst(s, e, channel, market, now, n);
      } else {
        RecordsJudged(s, e, channel, market, now, n + 1);
      }
    }
  }

  /** What the judge answers to an inbox entry is what the promises ask for. */
  lemma JudgeKeepsPromises(s: State, e: InboxEntry, env: Env, market: Market)
    requires PendingTyped(s) && e in s.inbox
    requires s.pending.Some? ==> s.pending.value.kind == Trade
    ensures match Judge(s, e, env, market)
            case Skip => !Asks(s, e, env, market)
            case Fail(_) => !CanAnswer(s, e, env, market)
            case Take(c) => Applicable(c, s) && CanAnswer(s, e, env, market) && Answered(s, e, env, market, Apply(c, s))
  {
    if Reaches(s, e, env) {
      var channel := env.channel.channel;
      RecordsJudged(s, e, channel, market, env.now, 0);
      assert e.records[0..] == e.records;
      if !HandlesReceived(s, e.paymentId, e.records) {
        forall k: nat ensures !IsFirst(s, e, channel, market, env.now, k) {
          if k < |e.records| {
            assert e.records[k] in e.records;
          }
        }
      }
      hide Concerns, Possible, Done, JudgeRecords, Apply, Applicable, IsFirst, CanDo;
    } else {
      hide JudgeRecords;
    }
  }

  // ----- saves that go well -----

  /** Nothing fails: the local database takes every write, and the server takes one at its present version. */
  predicate AllWell(m: Image<State>, luck: Luck)
  {
    && luck.flushOk && luck.localOk
    && (m.remotely ==> luck.reply == Accepted
                       && m.version == if m.remote.Some? then m.remote.value.version else 0)
  }

  lemma AllWellSaves(m: Image<State>, flushOk: bool, next: State, luck: Luck)
    requires AllWell(m, luck) && (m.dirty ==> flushOk)
    ensures FlushWorks(m, flushOk) && SaveWorks(Flushed(m, flushOk), luck)
    ensures AllWell(Flushed(m, flushOk), luck) && Flushed(m, flushOk).memory == m.memory
  {
  }

  /** A save that goes well leaves the next one as good a chance. */
  lemma AllStaysWell(m: Image<State>, next: State, luck: Luck, later: Luck)
    requires AllWell(m, luck) && AllWell(m, later)
    ensures SaveWorks(m, luck) && AllWell(Saved(m, next, luck), later)
  {
  }

  /** A round of the inbox loop works its entry off, or fails; it does not fail when the entry can be answered. */
  lemma RoundKeepsPromises(m: Image<State>, market: Market, env: Env, effect: Luck, drop: Luck)
    requires PendingTyped(m.memory) && DistinctIds(m.memory.inbox)
    requires m.memory.inbox != [] && !Waits(m.memory) && Turn(m.memory) < |m.memory.inbox|
    ensures var k := Turn(m.memory);
            match OneRound(m, market, env, effect, drop)
            case Go(image) => WorkedOff(m.memory, k, env, market, image.memory)
            case Stop(_) =>
              !(AllWell(m, effect) && AllWell(m, drop) && CanAnswer(m.memory, m.memory.inbox[k], env, market))
  {
    var s, k := m.memory, Turn(m.memory);
    var e := s.inbox[k];
    JudgeIsSound(s, e, env, market);
    JudgeKeepsPromises(s, e, env, market);
    match Judge(s, e, env, market) {
      case Fail(_) =>
      case Skip =>
        DropTakesOne(s, s, k);
        DropWorks(m, e.paymentId, drop);
      case Take(c) => TakenThenDropped(m, c, k, env, market, effect, drop);
    }
    hide Judge, Turn, Answered, Asks, CanAnswer, AllWell, Saved, SaveWorks, Apply, Applicable, Dropped, DistinctIds,
      PendingTyped, InInbox, KnownPayment;
  }

  lemma TakenThenDropped(m: Image<State>, c: Change, k: nat, env: Env, market: Market, effect: Luck, drop: Luck)
    requires PendingTyped(m.memory) && DistinctIds(m.memory.inbox) && k < |m.memory.inbox|
    requires Applicable(c, m.memory) && (c.TradeRefused? || c.Synced? || c.ToppedUp?)
    requires Answered(m.memory, m.memory.inbox[k], env, market, Apply(c, m.memory))
    ensures var taken := Saved(m, Apply(c, m.memory), effect);
            && (AllWell(m, effect) ==> SaveWorks(m, effect) && (AllWell(m, drop) ==> AllWell(taken, drop)))
            && (SaveWorks(m, effect) ==>
                  && InInbox(taken.memory.inbox, m.memory.inbox[k].paymentId)
                  && match Dropped(taken, m.memory.inbox[k].paymentId, drop)
                     case Go(image) => WorkedOff(m.memory, k, env, market, image.memory)
                     case Stop(_) => !AllWell(taken, drop))
  {
    var s := m.memory;
    var e, mid, taken := s.inbox[k], Apply(c, s), Saved(m, Apply(c, s), effect);
    TakenKeepsInbox(c, s);
    SavedIsOldOrNew(m, mid, effect);
    DropTakesOne(s, mid, k);
    if AllWell(m, effect) {
      AllStaysWell(m, mid, effect, effect);
      if AllWell(m, drop) {
        AllStaysWell(m, mid, effect, drop);
      }
    }
    if SaveWorks(m, effect) {
      DropWorks(taken, e.paymentId, drop);
    }
    hide Answered, Asks, AllWell, Saved, SaveWorks, Apply, Dropped, DistinctIds, PendingTyped;
  }

  lemma DropWorks(m: Image<State>, paymentId: Id, drop: Luck)
    requires InInbox(m.memory.inbox, paymentId)
    ensures match Dropped(m, paymentId, drop)
            case Go(image) => image.memory == Apply(Drop(paymentId), m.memory)
            case Stop(_) => !AllWell(m, drop)
  {
    SavedIsOldOrNew(m, Apply(Drop(paymentId), m.memory), drop);
    if AllWell(m, drop) {
      AllStaysWell(m, m.memory, drop, drop);
    }
    hide Saved, SaveWorks, Apply;
  }

  // ----- a claimed payment -----

  /** A payment to one of the hashes that the first receive waits for. */
  predicate TracksFirst(s: State, paymentId: Id)
  {
    s.firstReceive.Some? && s.firstReceive.value.received.None? && paymentId in s.firstReceive.value.hashes
  }

  /** The payment came over the provider's channel. */
  predicate Through(env: Env, channelIds: seq<Id>) { env.channel.Direct? && env.channel.channel.channelId in channelIds }

  predicate FirstArrives(s: State, paymentId: Id, amountMsat: nat, channelIds: seq<Id>, env: Env)
  {
    TracksFirst(s, paymentId) && Through(env, channelIds) && amountMsat >= 1000
  }

  ghost predicate FirstTold(s: State, paymentId: Id, amountMsat: nat, env: Env, t: State)
    requires env.channel.Direct?
  {
    && s.firstReceive.Some?
    && t == s.(revision := s.revision + 1,
               firstReceive := Some(s.firstReceive.value.(received :=
                 Some(Received(paymentId, env.channel.channel.channelId, amountMsat / 1000)))))
  }

  /** A signed protocol message about this channel. */
  predicate Relevant(r: Record, channelId: Id)
  {
    (r.tlv == TRADE_TLV || r.tlv == SETTLEMENT_TLV) && r.message.Some? && r.message.value.channelId == channelId
  }

  /** A new payment with a relevant record has to be kept. */
  predicate Queues(s: State, paymentId: Id, channelIds: seq<Id>, records: seq<Record>, env: Env)
  {
    && !TracksFirst(s, paymentId) && s.enabled && Through(env, channelIds)
    && (s.position.Some? ==> paymentId !in s.position.value.receipts)
    && (forall e | e in s.inbox :: e.paymentId != paymentId)
    && exists r | r in records :: Relevant(r, env.channel.channel.channelId)
  }

  /** `kept` is exactly the relevant records, in their order; `at` says where each of them was. */
  ghost predicate PicksAt(kept: seq<Record>, records: seq<Record>, channelId: Id, at: seq<nat>)
  {
    && Rises(at) && PointsTo(at, records, kept)
    && (forall k: nat | k < |records| :: Relevant(records[k], channelId) <==> k in at)
  }

  /** The payment goes to the end of the inbox, whole but for the records that are not about this channel. */
  ghost predicate QueueTold(s: State, paymentId: Id, amountMsat: nat, channelIds: seq<Id>, records: seq<Record>, env: Env,
                            t: State)
    requires env.channel.Direct?
  {
    && |t.inbox| == |s.inbox| + 1
    && var e := t.inbox[|s.inbox|];
    && t == s.(revision := s.revision + 1, inbox := s.inbox + [e])
    && e == InboxEntry(paymentId, amountMsat, channelIds, env.now, e.records)
    && exists at :: PicksAt(e.records, records, env.channel.channel.channelId, at)
  }

  ghost predicate PointsTo(at: seq<nat>, records: seq<Record>, kept: seq<Record>)
  {
    |at| == |kept| && forall i | 0 <= i < |at| :: at[i] < |records| && records[at[i]] == kept[i]
  }

  ghost predicate Rises(at: seq<nat>) { forall i, j | 0 <= i < j < |at| :: at[i] < at[j] }

  function Shifted(at: seq<nat>): (r: seq<nat>)
    ensures |r| == |at| && forall i | 0 <= i < |at| :: r[i] == at[i] + 1
  {
    seq(|at|, i requires 0 <= i < |at| => at[i] + 1)
  }

  lemma ShiftedMembers(at: seq<nat>, k: nat)
    ensures k in Shifted(at) <==> k > 0 && k - 1 in at
    ensures k in [0] + Shifted(at) <==> k == 0 || k - 1 in at
  {
    if k > 0 && k - 1 in at {
      var i :| 0 <= i < |at| && at[i] == k - 1;
      assert Shifted(at)[i] == k;
    }
  }

  lemma ShiftedRises(at: seq<nat>)
    requires Rises(at)
    ensures Rises(Shifted(at)) && Rises([0] + Shifted(at))
  {
  }

  /** One more record in front of picked ones, picked if it is relevant. */
  lemma OneMoreRecord(kept: seq<Record>, records: seq<Record>, channelId: Id, at: seq<nat>, r: Record)
    requires PicksAt(kept, records, channelId, at)
    ensures if Relevant(r, channelId) then PicksAt([r] + kept, [r] + records, channelId, [0] + Shifted(at))
            else PicksAt(kept, [r] + records, channelId, Shifted(at))
  {
    ShiftedRises(at);
    MembersShift(records, channelId, at, r);
    PointsShift(records, kept, at, r);
    hide Relevant, Rises, PointsTo, Shifted;
  }

  lemma PointsShift(records: seq<Record>, kept: seq<Record>, at: seq<nat>, r: Record)
    requires PointsTo(at, records, kept)
    ensures PointsTo(Shifted(at), [r] + records, kept) && PointsTo([0] + Shifted(at), [r] + records, [r] + kept)
  {
    var longer, shifted := [r] + records, Shifted(at);
    forall i | 0 <= i < |at| ensures shifted[i] < |longer| && longer[shifted[i]] == kept[i] {
      assert shifted[i] == at[i] + 1 && longer[at[i] + 1] == records[at[i]];
    }
    var with, more := [0] + shifted, [r] + kept;
    forall i | 0 <= i < |with| ensures with[i] < |longer| && longer[with[i]] == more[i] {
      if i > 0 {
        assert with[i] == shifted[i - 1] && more[i] == kept[i - 1];
      }
    }
  }

  lemma MembersShift(records: seq<Record>, channelId: Id, at: seq<nat>, r: Record)
    requires forall k: nat | k < |records| :: Relevant(records[k], channelId) <==> k in at
    ensures forall k: nat | k < |[r] + records| :: Relevant(([r] + records)[k], channelId)
                            <==> k in if Relevant(r, channelId) then [0] + Shifted(at) else Shifted(at)
  {
    var longer := [r] + records;
    hide Relevant;
    forall k: nat | k < |longer|
      ensures Relevant(longer[k], channelId) <==> k in if Relevant(r, channelId) then [0] + Shifted(at) else Shifted(at)
    {
      ShiftedMembers(at, k);
      assert k > 0 ==> longer[k] == records[k - 1];
    }
  }

  lemma {:induction false} RelevantArePicked(records: seq<Record>, channelId: Id) returns (at: seq<nat>)
    ensures PicksAt(RelevantRecords(records, channelId), records, channelId, at)
    ensures RelevantRecords(records, channelId) == [] <==> forall r | r in records :: !Relevant(r, channelId)
  {
    if records == [] {
      at := [];
    } else {
      var rest, kept := records[1..], RelevantRecords(records[1..], channelId);
      at := RelevantArePicked(rest, channelId);
      UnfoldRelevant(records, channelId);
      assert records == [records[0]] + rest;
      OneMoreRecord(kept, rest, channelId, at, records[0]);
      at := if Relevant(records[0], channelId) then [0] + Shifted(at) else Shifted(at);
      assert [] + kept == kept;
      hide PicksAt, RelevantRecords, Relevant;
    }
  }

  lemma UnfoldRelevant(records: seq<Record>, channelId: Id)
    requires records != []
    ensures RelevantRecords(records, channelId)
         == (if Relevant(records[0], channelId) then [records[0]] else []) + RelevantRecords(records[1..], channelId)
  {
  }

  lemma ReceiveKeepsPromises(s: State, paymentId: Id, amountMsat: nat, channelIds: seq<Id>, records: seq<Record>, env: Env)
    ensures var first := FirstArrives(s, paymentId, amountMsat, channelIds, env);
            var queues := Queues(s, paymentId, channelIds, records, env);
            match ReceiveDecision(s, paymentId, amountMsat, channelIds, records, env)
            case Ok(Some(c)) =>
              if first then FirstTold(s, paymentId, amountMsat, env, Apply(c, s))
              else queues && QueueTold(s, paymentId, amountMsat, channelIds, records, env, Apply(c, s))
            case _ => !first && !queues
  {
    if env.channel.Direct? {
      var at := RelevantArePicked(records, env.channel.channel.channelId);
    }
    hide PicksAt, RelevantRecords;
  }

  // ----- other single saves -----

  lemma OutcomeKeepsPromises(s: State, paymentId: Id, sent: bool, now: int)
    requires SettlementMatches(s) && (s.pending.Some? ==> s.enabled)
    ensures var ours := s.pending.Some? && s.pending.value.paymentId == paymentId;
            match OutcomeDecision(s, paymentId, sent, now)
            case Ok(Some(c)) => ours && OutcomeTold(s, sent, now, Apply(c, s))
            case Ok(None) => !ours
            case Err(_) => false
  {
  }

  /** The state after a payment hash starts to be tracked. */
  ghost predicate PrepareTold(s: State, provider: string, hash: Id, t: State)
  {
    && t.firstReceive.Some?
    && var f := t.firstReceive.value;
    && t == s.(revision := s.revision + 1, enabled := true, provider := provider, firstReceive := t.firstReceive)
    && f.received.None? && !f.attempted
    && (forall h :: h in f.hashes <==> h == hash || (s.firstReceive.Some? && h in s.firstReceive.value.hashes))
    && |f.hashes| <= 1 + if s.firstReceive.Some? then |s.firstReceive.value.hashes| else 0
  }

  /** Nothing has been received, allocated or committed yet. */
  predicate Untouched(s: State)
  {
    && s.position.None? && s.pending.None? && !s.paused
    && (s.firstReceive.Some? ==> s.firstReceive.value.received.None?)
  }

  lemma PrepareKeepsPromises(s: State, provider: string, hash: Id)
    ensures match PrepareDecision(s, provider, hash)
            case Ok(Some(c)) => Untouched(s) && PrepareTold(s, provider, hash, Apply(c, s))
            case Ok(None) => !Untouched(s)
            case Err(_) => false
  {
  }

  /** The position's channel is gone, and nothing is under way. */
  predicate Clearable(s: State, env: Env)
  {
    && s.position.Some? && s.pending.None? && s.inbox == [] && !env.channel.Ambiguous?
    && (env.channel.Direct? ==> env.channel.channel.channelId != s.position.value.channelId)
  }

  lemma ClearKeepsPromises(s: State, env: Env)
    ensures match ClearDecision(s, env)
            case Ok(Some(c)) => Clearable(s, env) && Apply(c, s) == s.(revision := s.revision + 1, position := None)
            case _ => !Clearable(s, env)
  {
  }

  /** The position is on the channel that was spliced, and nothing is under way. */
  predicate Movable(s: State, from: Id, to: Id)
  {
    s.position.Some? && s.position.value.channelId == from && from != to && s.pending.None? && s.inbox == []
  }

  lemma RebindKeepsPromises(s: State, from: Id, to: Id)
    ensures match RebindDecision(s, from, to)
            case Ok(Some(c)) =>
              Movable(s, from, to)
              && Apply(c, s) == s.(revision := s.revision + 1, position := Some(s.position.value.(channelId := to)))
            case _ => !Movable(s, from, to)
  {
  }

  // ----- guards of a payment -----

  /** The wallet may send, and the chain was synced at most two minutes ago. */
  predicate SafeToSend(env: Env) { env.canSend && env.lastSync != 0 && env.lastSync <= env.now <= env.lastSync + 120_000 }

  /** The one channel with the selected provider is usable, and the position, if any, is on it. */
  predicate ChannelReady(s: State, provider: string, env: Env)
  {
    && s.enabled && s.provider == provider && env.channel.Direct? && env.channel.channel.usable
    && (s.position.Some? ==> s.position.value.channelId == env.channel.channel.channelId)
  }

  lemma GuardsKeepPromises(s: State, provider: string, env: Env)
    ensures MaySend(env) <==> SafeToSend(env)
    ensures ReadyChannel(s, provider, env).Ok? <==> ChannelReady(s, provider, env)
    ensures ChannelReady(s, provider, env) ==> ReadyChannel(s, provider, env) == Ok(env.channel.channel)
  {
  }

  // ----- the settlement that a tick pays -----

  /** What the position is worth above its target, scaled by SATS. */
  function Above(p: Position, unit: int): int { p.backing * unit - p.target * SATS }

  /** The position is out of balance by a quarter of a dollar or more, and by a thousandth of the target or more. */
  predicate OutOfBalance(p: Position, above: int)
  {
    above >= SATS * USD_UNITS / 4 && above * 1000 >= p.target * SATS
  }

  /** A tick has to pay: nothing stands in the way, and the channel and the message can carry the amount. */
  predicate SettlementDue(s: State, provider: string, market: Market, env: Env)
  {
    && !s.paused && s.position.Some? && s.pending.None?
    && SafeToSend(env) && ChannelReady(s, provider, env) && Priced(market, env.now)
    && var p, unit := s.position.value, Worth(market);
    && p.target > 0
    && p.backing <= env.channel.channel.receiverSats
    && env.now >= p.lastSettlementAt + 120_000
    && OutOfBalance(p, Above(p, unit))
    && Above(p, unit) / unit <= env.channel.channel.spendableSats
    && Above(p, unit) / unit * 1000 <= 0x1f_ffff_ffff_ffff
  }

  /** The intent pays the whole satoshis above the target and says so. */
  ghost predicate SettlementNoted(p: Position, unit: int, env: Env, secrets: Secrets, i: Intent)
    requires unit > 0
  {
    && i.amountMsat == Above(p, unit) / unit * 1000 > 0
    && i.backing == p.backing - i.amountMsat / 1000
    && i == Intent(Settle, secrets.paymentId, i.amountMsat, p.target, i.backing, p.channelId, None, i.payload, SETTLEMENT_TLV,
                   env.now, false)
    && i.payload == SettlementNote(secrets.token, p.channelId, i.amountMsat, UserToLsp, p.target,
                                   env.now / 1000, env.now / 1000 + 14 * 86_400)
  }

  lemma TickKeepsPromises(s: State, provider: string, market: Market, env: Env, secrets: Secrets)
    ensures match TickIntent(s, provider, market, env, secrets)
            case Ok(Some(i)) =>
              SettlementDue(s, provider, market, env)
              && SettlementNoted(s.position.value, Worth(market), env, secrets, i)
            case _ => !SettlementDue(s, provider, market, env)
  {
    GuardsKeepPromises(s, provider, env);
    PriceRequired(market, env.now);
    if s.position.Some? && Priced(market, env.now) {
      BalanceDecides(s.position.value, market.price.value);
    }
    assert ChannelReady(s, provider, env) ==>
        s.enabled && env.channel.Direct? && (s.position.Some? ==> s.position.value.channelId == env.channel.channel.channelId);
    assert Priced(market, env.now) ==> market.price.Some?;
    hide MaySend, ReadyChannel, RequirePrice, UnitPrice, Worth, Priced, SafeToSend, ChannelReady, SettlementDecision,
      Above, OutOfBalance;
  }

  lemma BalanceDecides(p: Position, price: FeedPrice)
    ensures var unit := UnitPrice(price);
            var d, above := SettlementDecision(p.target, p.backing, unit, USD_UNITS), Above(p, unit);
            && d.Ok?
            && (d.value.action == Pay <==> OutOfBalance(p, above))
            && (d.value.action == Pay ==> d.value.sats == above / unit > 0 && above / unit <= p.backing)
  {
    var unit := UnitPrice(price);
    var above := Above(p, unit);
    if SettlementDecision(p.target, p.backing, unit, USD_UNITS).value.action == Pay {
      PaymentLeavesRemainder(p.target, p.backing, unit, USD_UNITS);
      DivIsGreatest(1, above, unit);
    }
  }

  // ----- a trade -----

  /** One percent of the dollars that change hands: of those paid for when the target rises, of those sold when it falls. */
  ghost predicate IsFee(fee: int, delta: int, unit: int)
  {
    var share := if delta > 0 then 99 else 100;
    0 <= fee && fee * (share * unit) <= Abs(delta) * SATS < (fee + 1) * (share * unit)
  }

  /** The satoshis behind a new target: the old ones moved by the change of target, or in a fresh allocation all the room. */
  predicate IsBacking(backing: int, p: Option<Position>, target: int, unit: int, room: int)
    requires unit > 0
  {
    var held, had := if p.Some? then p.value.backing else 0, if p.Some? then p.value.target else 0;
    var moved := held + (target * SATS) / unit - (had * SATS) / unit;
    backing == if target == 0 then 0
               else if held == 0 && had == 0 && moved <= room && (room - moved) * unit * 100 < USD_UNITS * SATS then room
               else moved
  }

  /** A target that a quote has to accept, with this fee and backing. */
  ghost predicate Acceptable(s: State, provider: string, market: Market, env: Env, cents: int, fee: int, backing: int)
  {
    && SafeToSend(env) && ChannelReady(s, provider, env) && Priced(market, env.now)
    && s.pending.None? && s.inbox == []
    && var unit, target, channel := Worth(market), cents * CENT, env.channel.channel;
    && var had := if s.position.Some? then s.position.value.target else 0;
    && 0 <= target <= MAX_USD_UNITS && target != had
    && (target > had ==> channel.inboundSats > 0)
    && IsFee(fee, target - had, unit) && fee <= channel.spendableSats && channel.spendableSats > 0
    && IsBacking(backing, s.position, target, unit, channel.receiverSats - fee)
    && 0 <= backing <= channel.receiverSats - fee && (target > 0 ==> backing > 0)
    && (target == 0 && s.position.Some? ==>
          !OutOfBalance(s.position.value, Above(s.position.value, unit))
          && !OutOfBalance(s.position.value, -Above(s.position.value, unit)))
  }

  lemma FeeIs(delta: int, unit: int, fee: int)
    requires unit > 0
    ensures IsFee(fee, delta, unit) <==> fee == ConversionFee(delta, unit)
  {
    var share := if delta > 0 then 99 else 100;
    var whole := Abs(delta) * SATS;
    DivBounds(whole, share * unit);
    if IsFee(fee, delta, unit) {
      MulOrder(fee, fee, share * unit);
      MulOrder(fee + 1, fee + 1, share * unit);
      DivUnique(whole, share * unit, fee);
    }
  }

  /**
   * A quote accepts exactly the targets that have an acceptable fee and backing, and names them. The fee and the backing
   * of an acceptable target are determined, so `fee` and `backing` stand for any that one might think of.
   */
  lemma QuoteKeepsPromises(s: State, provider: string, market: Market, env: Env, cents: int, fee: int, backing: int)
    ensures match Quote(s, provider, market, env, cents)
            case Ok(q) =>
              && Acceptable(s, provider, market, env, cents, q.fee, q.backing)
              && q == TradeQuote(s.revision, env.channel.channel.channelId, cents, q.backing, q.fee, market.price.value)
            case Err(_) => !Acceptable(s, provider, market, env, cents, fee, backing)
  {
    GuardsKeepPromises(s, provider, env);
    PriceRequired(market, env.now);
    if SafeToSend(env) && ChannelReady(s, provider, env) && Priced(market, env.now) {
      AllocationKeepsPromises(s, provider, market, env, cents, fee, backing);
      hide MaySend, ReadyChannel, RequirePrice, SafeToSend, ChannelReady, QuoteAllocation, Acceptable, Allocate;
    } else {
      hide MaySend, ReadyChannel, RequirePrice, SafeToSend, ChannelReady, QuoteAllocation;
    }
  }

  lemma AllocationKeepsPromises(s: State, provider: string, market: Market, env: Env, cents: int, fee: int, backing: int)
    requires SafeToSend(env) && ChannelReady(s, provider, env) && Priced(market, env.now)
    ensures match Allocate(s, env.channel.channel, market.price.value, cents)
            case Ok(q) =>
              Acceptable(s, provider, market, env, cents, q.fee, q.backing)
              <==> s.pending.None? && s.inbox == [] && cents * CENT <= MAX_USD_UNITS && cents * CENT != Target(s)
                   && (cents * CENT > Target(s) ==> env.channel.channel.inboundSats > 0)
            case Err(_) => !Acceptable(s, provider, market, env, cents, fee, backing)
  {
    var unit, target := Worth(market), cents * CENT;
    FeeIs(target - Target(s), unit, ConversionFee(target - Target(s), unit));
    FeeIs(target - Target(s), unit, fee);
    hide IsFee, ConversionFee, SafeToSend, ChannelReady;
  }

  /** The intent asks the provider for exactly what the quote says, and pays its fee or one millisatoshi. */
  ghost predicate TradeNoted(q: TradeQuote, env: Env, secrets: Secrets, hash: Payload -> Id, i: Intent)
  {
    && env.channel.Direct?
    && var channel := env.channel.channel;
    && i.target == q.targetCents * CENT && i.backing == q.backing
    && i.amountMsat == (if q.fee > 0 then q.fee * 1000 else 1)
    && i.payload == TradeRequest(channel.channelId, channel.userChannelId, secrets.token, i.target, q.price.priceCents,
                                 env.now / 1000)
    && i == Intent(Trade, secrets.paymentId, i.amountMsat, i.target, i.backing, channel.channelId,
                   Some(Correlation(secrets.token, secrets.paymentId, hash(i.payload))), i.payload, TRADE_TLV, env.now, false)
  }

  /** A commit forms the trade of a quote that still stands, and refuses only one that does not. */
  lemma CommitKeepsPromises(s: State, provider: string, market: Market, env: Env, q: TradeQuote, secrets: Secrets,
                            hash: Payload -> Id)
    ensures match TradeOf(s, provider, market, env, q, secrets, hash)
            case Ok(intent) =>
              && intent.Some? && TradeNoted(q, env, secrets, hash, intent.value)
              && q.baseline == s.revision && Quote(s, provider, market, env, q.targetCents).Ok?
              && var now := Quote(s, provider, market, env, q.targetCents).value;
              q == now.(price := q.price) && q.price.observedAt == now.price.observedAt
            case Err(_) => Quote(s, provider, market, env, q.targetCents) != Ok(q)
  {
    if Quote(s, provider, market, env, q.targetCents).Ok? {
      QuoteFits(s, provider, market, env, q.targetCents);
      QuoteKeepsPromises(s, provider, market, env, q.targetCents, 0, 0);
    }
    hide Quote, Acceptable, MaySend, ReadyChannel;
  }

  /** The intent is pending, and a first receive that it may convert has been attempted. */
  ghost predicate Proposed(s: State, i: Intent, t: State)
  {
    && t == s.(revision := s.revision + 1, pending := Some(i), firstReceive := t.firstReceive)
    && t.firstReceive == if i.kind == Trade && s.firstReceive.Some? && s.firstReceive.value.received.Some?
                         then Some(s.firstReceive.value.(attempted := true)) else s.firstReceive
  }

  /**
   * What becomes of an intent that an operation forms. It says that it sent something only if LDK was called once, for that
   * intent, from a wallet that was still fit to send, and the intent is pending; when nothing fails it does so. Without
   * an intent nothing is sent and nothing changes.
   */
  lemma AttemptKeepsPromises(m: Image<State>, stopped: bool, flushOk: bool, intent: Result<Option<Intent>, StableError>,
                             f: SendFate)
    requires CanPropose(intent, m.memory)
    ensures var a, sends := Attempt(m, stopped, flushOk, intent, f), AttemptSends(m, stopped, flushOk, intent, f);
            && (a.result == Ok(true) ==>
                  && intent.Ok? && intent.value.Some?
                  && sends == [intent.value.value] && Proposed(m.memory, intent.value.value, a.image.memory))
            && (a.result == Ok(false) ==> intent == Ok(None) && a.image.memory == m.memory)
            && (sends != [] ==>
                  intent.Ok? && intent.value.Some? && sends == [intent.value.value] && SafeToSend(f.env) && !stopped)
            && (intent.Err? ==> a.result.Err? && a.image.memory == m.memory)
            && (intent.Ok? && !stopped && (m.dirty ==> flushOk) && AllWell(m, f.save) && SafeToSend(f.env) && f.reply == Delivered
                ==> a.result == Ok(intent.value.Some?))
  {
    if m.dirty ==> flushOk {
      if AllWell(m, f.save) {
        AllWellSaves(m, flushOk, m.memory, f.save);
      }
      assert Flushed(m, flushOk).memory == m.memory && FlushWorks(m, flushOk);
    }
    if intent.Ok? && intent.value.Some? {
      SendKeepsPromises(Flushed(m, flushOk), intent.value.value, f);
    }
    assert MaySend(f.env) <==> SafeToSend(f.env);
    hide SendEnd, Saved, SaveWorks, Proposed, AllWell, Applicable, SafeToSend, MaySend;
  }

  lemma SendKeepsPromises(m: Image<State>, i: Intent, f: SendFate)
    ensures Applicable(Propose(i), m.memory) ==>
              var e := SendEnd(m, i, f);
              && (e.result.Ok? <==> CallsLdk(m, f) && f.reply == Delivered)
              && (e.result.Ok? ==> e.result == Ok(true) && Proposed(m.memory, i, e.image.memory))
  {
    if Applicable(Propose(i), m.memory) {
      SavedIsOldOrNew(m, Apply(Propose(i), m.memory), f.save);
      hide Saved, SaveWorks, MaySend;
    }
  }

  /** Allocating everything commits the maximum as quoted before the announcement, and refuses only when it cannot. */
  lemma AllocateAllKeepsPromises(s: State, provider: string, market: Market, env: Env, announced: bool, later: Env,
                                 secrets: Secrets, hash: Payload -> Id)
    ensures var best := MaximumQuote(s, provider, market, env);
            match AllocateAllOf(s, provider, market, env, announced, later, secrets, hash)
            case Ok(intent) =>
              && !s.paused && s.pending.None? && s.inbox == [] && announced && best.Ok?
              && intent.Some? && TradeNoted(best.value, later, secrets, hash, intent.value)
            case Err(_) =>
              s.paused || s.pending.Some? || s.inbox != [] || !announced || best.Err?
              || Quote(s, provider, market, later, best.value.targetCents) != best
  {
    if MaximumQuote(s, provider, market, env).Ok? {
      CommitKeepsPromises(s, provider, market, later, MaximumQuote(s, provider, market, env).value, secrets, hash);
    }
    hide MaximumQuote, TradeOf, TradeNoted, Quote;
  }

  /** A first receive is converted once: only while nothing else has been allocated, and never again once a trade was proposed. */
  lemma FirstConversionOnce(s: State, provider: string, market: Market, env: Env, secrets: Secrets, hash: Payload -> Id)
    ensures match FirstIntent(s, provider, market, env, secrets, hash)
            case Ok(Some(i)) =>
              && s.position.None? && s.pending.None? && !s.paused && s.inbox == [] && i.kind == Trade
              && s.firstReceive.Some? && !s.firstReceive.value.attempted && s.firstReceive.value.received.Some?
              && i.channelId == s.firstReceive.value.received.value.channelId
              && forall t | Proposed(s, i, t) :: t.firstReceive.Some? && t.firstReceive.value.attempted
            case Ok(None) =>
              s.position.Some? || s.pending.Some? || s.paused || s.firstReceive.None?
              || s.firstReceive.value.received.None? || s.firstReceive.value.attempted
            case Err(_) => true
  {
    hide SearchMax, FirstHigh, FreshAccepts;
    if FirstDue(s) && MaySend(env) && ReadyChannel(s, provider, env).Ok? && RequirePrice(market, env.now).Ok? {
      var channel, price := ReadyChannel(s, provider, env).value, RequirePrice(market, env.now).value;
      var target := SearchMax(FreshAccepts(price.priceCents, channel.spendableSats, channel.receiverSats),
                              1, FirstHigh(channel.receiverSats, price.priceCents), 0);
      if Quote(s, provider, market, env, target).Ok? {
        QuoteKeepsPromises(s, provider, market, env, target, 0, 0);
        CommitKeepsPromises(s, provider, market, env, Quote(s, provider, market, env, target).value, secrets, hash);
      }
    }
    hide Quote, TradeOf, MaySend, ReadyChannel, RequirePrice;
  }

  /** With an empty inbox a tick attempts exactly the settlement that is due. */
  lemma TickAttempts(m: Image<State>, stopped: bool, flushOk: bool, provider: string, market: Market, inbox: InboxFate,
                     env: Env, secrets: Secrets, f: SendFate)
    requires PendingTyped(m.memory) && m.memory.inbox == []
    ensures var due := TickIntent(m.memory, provider, market, env, secrets);
            && CanPropose(due, m.memory)
            && Tick(m, stopped, flushOk, provider, market, inbox, env, secrets, f) == Attempt(m, stopped, flushOk, due, f)
            && TickSends(m, stopped, flushOk, provider, market, inbox, env, secrets, f)
               == AttemptSends(m, stopped, flushOk, due, f)
  {
    TickCanPropose(m.memory, provider, market, env, secrets);
    hide TickIntent, Paid, PaidSends, CanPropose;
  }

  /** Whatever the inbox held, a tick sends at most the one settlement that is due once it has been worked off. */
  lemma TickSendsWhatIsDue(m: Image<State>, stopped: bool, flushOk: bool, provider: string, market: Market, inbox: InboxFate,
                           env: Env, secrets: Secrets, f: SendFate)
    requires PendingTyped(m.memory)
    ensures var sends := TickSends(m, stopped, flushOk, provider, market, inbox, env, secrets, f);
            sends != [] ==>
              && |sends| == 1 && !stopped && SafeToSend(f.env)
              && exists s: State :: SettlementDue(s, provider, market, env) && (forall e | e in s.inbox :: e in m.memory.inbox)
                                    && SettlementNoted(s.position.value, Worth(market), env, secrets, sends[0])
  {
    if TickSends(m, stopped, flushOk, provider, market, inbox, env, secrets, f) != [] {
      var flushed := Flushed(m, flushOk);
      var s := Drain(flushed, market, inbox, 0).image.memory;
      DrainLeavesOnlyWaiting(flushed, market, inbox, 0);
      TickKeepsPromises(s, provider, market, env, secrets);
      assert MaySend(f.env) <==> SafeToSend(f.env);
      assert flushed.memory == m.memory;
      hide Drain, TickIntent, SettlementDue, SettlementNoted, MaySend, SafeToSend, Flushed, FlushWorks;
    }
  }

  /** When the inbox loop ends with an error, it is the error of one of its rounds. */
  lemma {:induction false} DrainFailsInARound(m: Image<State>, market: Market, fate: InboxFate, k: nat)
    returns (image: Image<State>, j: nat)
    requires PendingTyped(m.memory)
    ensures PendingTyped(image.memory) && j >= k
    ensures var d := Drain(m, market, fate, k);
            d.result.Err? ==> OneRound(image, market, fate.env(j), fate.effect(j), fate.drop(j)) == Round.Stop(d)
    decreases |m.memory.inbox|
  {
    RoundShrinks(m, market, fate.env(k), fate.effect(k), fate.drop(k));
    image, j := m, k;
    hide OneRound;
    match OneRound(m, market, fate.env(k), fate.effect(k), fate.drop(k)) {
      case Stop(ended) =>
      case Go(next) => image, j := DrainFailsInARound(next, market, fate, k + 1);
    }
  }
}
