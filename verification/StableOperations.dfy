/**
 * The client's operations as functions of the stored image and of how the
 * surroundings answer: operations that save once, the sending of an intent,
 * and the loop over the inbox.
 */
module StableOperations {
  import opened Results
  import opened Arithmetic
  import opened StableTypes
  import opened StableStore
  import opened StableChanges
  import opened StableMath
  import opened StablePayments
  import opened StableQuotes

  /** The image an operation leaves, and whether it saved or sent anything. */
  datatype Ended = Ended(image: Image<State>, result: Result<bool, StableError>)

  /** A serialised operation starts by flushing; then it decides on one change, or on none. */
  function Serial(m: Image<State>, stopped: bool, flushOk: bool, decision: Result<Option<Change>, StableError>,
                  luck: Luck): Ended
    requires decision.Ok? && decision.value.Some? ==> Applicable(decision.value.value, m.memory)
  {
    if stopped then Ended(m, Err(Stopped))
    else if !FlushWorks(m, flushOk) then Ended(m, Err(StoreFailed))
    else
      var f := Flushed(m, flushOk);
      match decision
      case Err(error) => Ended(f, Err(error))
      case Ok(None) => Ended(f, Ok(false))
      case Ok(Some(c)) => Ended(Saved(f, Apply(c, m.memory), luck),
                                if SaveWorks(f, luck) then Ok(true) else Err(StoreFailed))
  }

  // ----- operations that save once -----

  predicate CanPrepareFirst(s: State)
  {
    && s.position.None? && s.pending.None? && !s.paused
    && !(s.firstReceive.Some? && s.firstReceive.value.received.Some?)
  }

  function PrepareDecision(s: State, provider: string, hash: Id): Result<Option<Change>, StableError>
  {
    Ok(if CanPrepareFirst(s) then Some(PrepareFirst(provider, hash)) else None)
  }

  function ClearDecision(s: State, env: Env): (d: Result<Option<Change>, StableError>)
    ensures d.Ok? && d.value.Some? ==> Applicable(d.value.value, s)
  {
    if s.position.None? then Err(Refused(StillOpen))
    else if env.channel.Ambiguous? then Err(ChannelAmbiguous)
    else if env.channel.Direct? && env.channel.channel.channelId == s.position.value.channelId
      then Err(Refused(StillOpen))
    else if s.pending.Some? || s.inbox != [] then Err(Busy)
    else Ok(Some(ClearClosed))
  }

  function RebindDecision(s: State, from: Id, to: Id): (d: Result<Option<Change>, StableError>)
    ensures d.Ok? && d.value.Some? ==> Applicable(d.value.value, s)
  {
    if s.pending.Some? || s.inbox != [] then Err(Busy)
    else if s.position.Some? && s.position.value.channelId == to then Ok(None)
    else if s.position.Some? && s.position.value.channelId != from then Err(Refused(OtherChannel))
    else Ok(if s.position.Some? then Some(Rebind(to)) else None)
  }

  /** What LDK's verdict on the pending payment asks for. */
  function OutcomeDecision(s: State, paymentId: Id, sent: bool, now: int): (d: Result<Option<Change>, StableError>)
    ensures d.Ok? && d.value.Some? ==> Applicable(d.value.value, s)
  {
    if !HandlesOutcome(s, paymentId) then Ok(None)
    else if !sent then Ok(Some(PayFailed))
    else if s.pending.value.kind == Trade then Ok(Some(TradePaid))
    else if s.position.None? then Err(MissingPosition)
    else Ok(Some(SettlementPaid(now)))
  }

  function RelevantRecords(records: seq<Record>, channelId: Id): seq<Record>
  {
    if records == [] then []
    else
      var r := records[0];
      (if (r.tlv == TRADE_TLV || r.tlv == SETTLEMENT_TLV) && r.message.Some? && r.message.value.channelId == channelId
       then [r] else [])
      + RelevantRecords(records[1..], channelId)
  }

  /** What a claimed payment asks for: the first receive, or a place in the inbox. */
  function ReceiveDecision(s: State, paymentId: Id, amountMsat: nat, channelIds: seq<Id>, records: seq<Record>, env: Env)
    : (d: Result<Option<Change>, StableError>)
    ensures d.Ok? && d.value.Some? ==> Applicable(d.value.value, s)
  {
    if s.firstReceive.Some? && s.firstReceive.value.received.None? && paymentId in s.firstReceive.value.hashes then
      if env.channel.Ambiguous? then Err(ChannelAmbiguous)
      else if env.channel.Absent? || env.channel.channel.channelId !in channelIds || amountMsat < 1000 then Ok(None)
      else Ok(Some(FirstReceived(Received(paymentId, env.channel.channel.channelId, amountMsat / 1000))))
    else if !HandlesReceived(s, paymentId, records) || KnownPayment(s, paymentId) || InInbox(s.inbox, paymentId) then Ok(None)
    else if env.channel.Ambiguous? then Err(ChannelAmbiguous)
    else if env.channel.Absent? || env.channel.channel.channelId !in channelIds then Ok(None)
    else
      var relevant := RelevantRecords(records, env.channel.channel.channelId);
      if relevant == [] then Ok(None)
      else Ok(Some(Enqueue(InboxEntry(paymentId, amountMsat, channelIds, env.now, relevant))))
  }

  /** A replayed event for a payment that is in the inbox or already counted changes nothing. */
  lemma ReplayedReceiptIsIgnored(s: State, paymentId: Id, amountMsat: nat, channelIds: seq<Id>, records: seq<Record>, env: Env)
    requires KnownPayment(s, paymentId) || InInbox(s.inbox, paymentId)
    requires s.firstReceive.None? || s.firstReceive.value.received.Some? || paymentId !in s.firstReceive.value.hashes
    ensures ReceiveDecision(s, paymentId, amountMsat, channelIds, records, env) == Ok(None)
  {
  }

  // ----- sending -----

  datatype SendReply = Delivered | RejectedBeforeSending | OtherFailure

  /** What happens around one payment: its save, the second look at the wallet, LDK's answer, and the undo. */
  datatype SendFate = SendFate(save: Luck, env: Env, reply: SendReply, undo: Luck)

  /** LDK is called: the intent is saved and the wallet is still fit to send. */
  predicate CallsLdk(m: Image<State>, f: SendFate) { SaveWorks(m, f.save) && MaySend(f.env) }

  function SendEnd(m: Image<State>, i: Intent, f: SendFate): Ended
    requires Applicable(Propose(i), m.memory)
  {
    var saved := Saved(m, Apply(Propose(i), m.memory), f.save);
    if !SaveWorks(m, f.save) then Ended(saved, Err(StoreFailed))
    else if !MaySend(f.env) || f.reply == RejectedBeforeSending then
      var undone := Saved(saved, Apply(Withdraw, saved.memory), f.undo);
      Ended(undone, Err(if !SaveWorks(saved, f.undo) then StoreFailed
                        else if !MaySend(f.env) then WaitForSync else SendRejected))
    else Ended(saved, if f.reply == Delivered then Ok(true) else Err(SendFailed))
  }

  /**
   * After a payment attempt nothing is pending that was not handed to LDK, unless a save failed; and an
   * intent that LDK took is still pending, in memory and on disk.
   */
  lemma AttemptEndsClean(m: Image<State>, initial: State, i: Intent, f: SendFate)
    requires Applicable(Propose(i), m.memory) && Coherent(m, initial) && !m.dirty
    ensures var e := SendEnd(m, i, f);
            && (e.result.Ok? <==> CallsLdk(m, f) && f.reply == Delivered)
            && (CallsLdk(m, f) && f.reply != RejectedBeforeSending ==>
                  e.image.memory.pending == Some(i) && Recovered(e.image, initial) == e.image.memory)
            && (e.result.Err? && e.result.error in {WaitForSync, SendRejected} ==>
                  e.image.memory.pending.None? && Recovered(e.image, initial) == e.image.memory)
            && e.image.memory.position == m.memory.position
  {
    SaveMovesDrift(m, initial, Apply(Propose(i), m.memory), f.save);
    var saved := Saved(m, Apply(Propose(i), m.memory), f.save);
    if SaveWorks(m, f.save) {
      SaveMovesDrift(saved, initial, Apply(Withdraw, saved.memory), f.undo);
    }
    hide Saved, SaveWorks, Recovered, Coherent, DriftOf;
  }

  // ----- the inbox -----

  /** How the surroundings answer in each round of the loop. */
  datatype InboxFate = InboxFate(env: nat -> Env, effect: nat -> Luck, drop: nat -> Luck)

  /** A record that answers the pending trade. */
  predicate RecordAnswers(r: Record, c: Correlation)
  {
    && r.message.Some?
    && ((r.message.value.Rejected? && r.message.value.rejects == c)
        || (r.message.value.Sync? && r.message.value.correlation == Some(c)))
  }

  predicate Answers(e: InboxEntry, i: Intent)
  {
    i.correlation.Some? && exists r | r in e.records :: RecordAnswers(r, i.correlation.value)
  }

  function FirstAnswer(inbox: seq<InboxEntry>, i: Intent): (n: nat)
    ensures n <= |inbox|
    ensures n < |inbox| ==> Answers(inbox[n], i)
    ensures forall k | 0 <= k < n :: !Answers(inbox[k], i)
  {
    if inbox == [] || Answers(inbox[0], i) then 0 else 1 + FirstAnswer(inbox[1..], i)
  }

  /** The entry to look at next: the oldest, or the oldest that answers the pending trade. */
  function Turn(s: State): (n: nat)
    ensures n <= |s.inbox|
  {
    if s.pending.Some? then FirstAnswer(s.inbox, s.pending.value) else 0
  }

  predicate Waits(s: State) { s.pending.Some? && s.pending.value.kind == Settle }

  datatype Round = Stop(ended: Ended) | Go(image: Image<State>)

  function OneRound(m: Image<State>, market: Market, env: Env, effect: Luck, drop: Luck): Round
    requires PendingTyped(m.memory)
  {
    var s := m.memory;
    if s.inbox == [] || Waits(s) || Turn(s) == |s.inbox| then Stop(Ended(m, Ok(true)))
    else
      var e := s.inbox[Turn(s)];
      JudgeIsSound(s, e, env, market);
      match Judge(s, e, env, market)
      case Fail(error) => Stop(Ended(m, Err(error)))
      case Skip => Dropped(m, e.paymentId, drop)
      case Take(c) =>
        var taken := Saved(m, Apply(c, s), effect);
        if !SaveWorks(m, effect) then Stop(Ended(taken, Err(StoreFailed)))
        else Dropped(taken, e.paymentId, drop)
  }

  function Dropped(m: Image<State>, paymentId: Id, drop: Luck): Round
    requires InInbox(m.memory.inbox, paymentId)
  {
    var dropped := Saved(m, Apply(Drop(paymentId), m.memory), drop);
    if SaveWorks(m, drop) then Go(dropped) else Stop(Ended(dropped, Err(StoreFailed)))
  }

  /** The judge's changes leave the inbox alone. */
  lemma TakenKeepsInbox(c: Change, s: State)
    requires Applicable(c, s) && PendingTyped(s)
    requires c.TradeRefused? || c.Synced? || c.ToppedUp?
    ensures Apply(c, s).inbox == s.inbox && PendingTyped(Apply(c, s))
  {
  }

  lemma DropShrinks(m: Image<State>, paymentId: Id, drop: Luck)
    requires InInbox(m.memory.inbox, paymentId) && PendingTyped(m.memory)
    ensures match Dropped(m, paymentId, drop)
            case Go(image) => |image.memory.inbox| < |m.memory.inbox| && RoundLeaves(m, image) && !image.dirty
            case Stop(ended) => ended.result.Err? && RoundLeaves(m, ended.image)
  {
    WithoutMembers(m.memory.inbox, paymentId);
    SavedIsOldOrNew(m, Apply(Drop(paymentId), m.memory), drop);
    hide Saved, SaveWorks;
  }

  /** A round adds no entry to the inbox. */
  ghost predicate RoundLeaves(m: Image<State>, image: Image<State>)
  {
    PendingTyped(image.memory) && forall e | e in image.memory.inbox :: e in m.memory.inbox
  }

  /** Where the loop may stop without an error. */
  ghost predicate Settled(s: State)
  {
    || s.inbox == []
    || Waits(s)
    || (s.pending.Some? && forall e | e in s.inbox :: !Answers(e, s.pending.value))
  }

  lemma RoundShrinks(m: Image<State>, market: Market, env: Env, effect: Luck, drop: Luck)
    requires PendingTyped(m.memory)
    ensures match OneRound(m, market, env, effect, drop)
            case Go(image) => |image.memory.inbox| < |m.memory.inbox| && RoundLeaves(m, image) && !image.dirty
            case Stop(ended) =>
              RoundLeaves(m, ended.image) && (ended.result.Ok? ==> ended.image == m && Settled(m.memory))
  {
    var s := m.memory;
    if s.inbox != [] && !Waits(s) && Turn(s) < |s.inbox| {
      var e := s.inbox[Turn(s)];
      JudgeIsSound(s, e, env, market);
      var v := Judge(s, e, env, market);
      hide Judge, Turn, Saved, SaveWorks, Answers, Dropped, Applicable, Settled;
      if v.Take? {
        TakenKeepsInbox(v.change, s);
        var taken := Saved(m, Apply(v.change, s), effect);
        SavedIsOldOrNew(m, Apply(v.change, s), effect);
        if SaveWorks(m, effect) {
          DropShrinks(taken, e.paymentId, drop);
        }
      } else if v.Skip? {
        DropShrinks(m, e.paymentId, drop);
      }
    } else {
      hide Judge, Answers, Applicable;
    }
  }

  /** The loop over the inbox; its length is the measure. */
  function Drain(m: Image<State>, market: Market, fate: InboxFate, k: nat): Ended
    requires PendingTyped(m.memory)
    decreases |m.memory.inbox|
  {
    RoundShrinks(m, market, fate.env(k), fate.effect(k), fate.drop(k));
    match OneRound(m, market, fate.env(k), fate.effect(k), fate.drop(k))
    case Stop(ended) => ended
    case Go(image) => Drain(image, market, fate, k + 1)
  }

  /**
   * When the loop ends well, what is left in the inbox waits for a payment of the client's own: a settlement, or a
   * trade that no entry answers. However it ends, it adds no entry.
   */
  lemma {:induction false} DrainLeavesOnlyWaiting(m: Image<State>, market: Market, fate: InboxFate, k: nat)
    requires PendingTyped(m.memory)
    ensures var d := Drain(m, market, fate, k);
            && (d.result.Ok? ==> Settled(d.image.memory))
            && RoundLeaves(m, d.image)
            && (d.result.Ok? && !m.dirty ==> !d.image.dirty)
    decreases |m.memory.inbox|
  {
    RoundShrinks(m, market, fate.env(k), fate.effect(k), fate.drop(k));
    hide OneRound, Settled;
    match OneRound(m, market, fate.env(k), fate.effect(k), fate.drop(k)) {
      case Stop(ended) =>
      case Go(image) => DrainLeavesOnlyWaiting(image, market, fate, k + 1);
    }
  }

  // ----- operations that may end in a payment -----

  predicate CanPropose(intent: Result<Option<Intent>, StableError>, s: State)
  {
    intent.Ok? && intent.value.Some? ==> Applicable(Propose(intent.value.value), s)
  }

  function Paid(m: Image<State>, intent: Result<Option<Intent>, StableError>, f: SendFate): Ended
    requires CanPropose(intent, m.memory)
  {
    match intent
    case Err(error) => Ended(m, Err(error))
    case Ok(None) => Ended(m, Ok(false))
    case Ok(Some(i)) => SendEnd(m, i, f)
  }

  function Attempt(m: Image<State>, stopped: bool, flushOk: bool, intent: Result<Option<Intent>, StableError>,
                   f: SendFate): Ended
    requires CanPropose(intent, m.memory)
  {
    if stopped then Ended(m, Err(Stopped))
    else if !FlushWorks(m, flushOk) then Ended(m, Err(StoreFailed))
    else Paid(Flushed(m, flushOk), intent, f)
  }

  /** The intents that such an operation hands to LDK: its own, if it gets that far. */
  function PaidSends(m: Image<State>, intent: Result<Option<Intent>, StableError>, f: SendFate): seq<Intent>
  {
    match intent
    case Ok(Some(i)) => if CallsLdk(m, f) then [i] else []
    case _ => []
  }

  function AttemptSends(m: Image<State>, stopped: bool, flushOk: bool, intent: Result<Option<Intent>, StableError>,
                        f: SendFate): seq<Intent>
  {
    if stopped || !FlushWorks(m, flushOk) then [] else PaidSends(Flushed(m, flushOk), intent, f)
  }

  function TradeOf(s: State, provider: string, market: Market, env: Env, q: TradeQuote, secrets: Secrets,
                   hash: Payload -> Id): (r: Result<Option<Intent>, StableError>)
    ensures CanPropose(r, s)
    ensures r.Ok? ==> r.value.Some? && r.value.value.paymentId == secrets.paymentId
  {
    var i :- CommitIntent(s, provider, market, env, q, secrets, hash);
    CommitIsWhatWasReviewed(s, provider, market, env, q, secrets, hash);
    Ok(Some(i))
  }

  /** The greatest trade, or the error of the first quote. */
  function MaximumQuote(s: State, provider: string, market: Market, env: Env): Result<TradeQuote, StableError>
  {
    var current := RoundedCents(Target(s));
    var first :- Quote(s, provider, market, env, current + 1);
    var channel :- ReadyChannel(s, provider, env);
    Quote(s, provider, market, env,
          SearchMax(Accepts(s, provider, market, env), current + 2,
                    MaximumHigh(current, channel.receiverSats, first.price.priceCents), current + 1))
  }

  /**
   * The maximum is a quote for more than the present target, rounded to a cent, and no greater one up to the worth of the whole
   * channel is accepted. There is none exactly when one cent more is refused.
   */
  lemma MaximumQuoteIsGreatest(s: State, provider: string, market: Market, env: Env)
    ensures var low := (Target(s) + 5_000_000) / 10_000_000 + 1;
            match MaximumQuote(s, provider, market, env)
            case Err(error) => Quote(s, provider, market, env, low) == Err(error)
            case Ok(q) =>
              && env.channel.Direct?
              && var high := low - 1 + (env.channel.channel.receiverSats * q.price.priceCents) / 100_000_000;
              && Quote(s, provider, market, env, q.targetCents) == Ok(q)
              && IsGreatest(Accepts(s, provider, market, env), low, Max(low, high), q.targetCents)
  {
    hide Quote, SearchMax, RequirePrice, ReadyChannel, RoundedCents, MaximumHigh;
    RoundedCentsIs(Target(s));
    var low := RoundedCents(Target(s)) + 1;
    if Quote(s, provider, market, env, low).Ok? {
      QuotePrice(s, provider, market, env, low);
      var price := RequirePrice(market, env.now).value;
      var high := MaximumHigh(low - 1, env.channel.channel.receiverSats, price.priceCents);
      MaximumHighIs(low - 1, env.channel.channel.receiverSats, price.priceCents);
      MaximumIsGreatest(s, provider, market, env, high);
      var best := SearchMax(Accepts(s, provider, market, env), low + 1, high, low);
      QuotePrice(s, provider, market, env, best);
      QuoteNamesTarget(s, provider, market, env, best);
    }
  }

  lemma RoundedCentsIs(target: Usd)
    ensures RoundedCents(target) == (target + 5_000_000) / 10_000_000
  {
  }

  lemma MaximumHighIs(current: nat, receiverSats: nat, priceCents: int)
    ensures MaximumHigh(current, receiverSats, priceCents) == current + (receiverSats * priceCents) / 100_000_000
  {
  }

  lemma QuotePrice(s: State, provider: string, market: Market, env: Env, cents: int)
    ensures match Quote(s, provider, market, env, cents)
            case Err(_) => true
            case Ok(q) =>
              && RequirePrice(market, env.now) == Ok(q.price)
              && env.channel.Direct? && ReadyChannel(s, provider, env) == Ok(env.channel.channel)
  {
    hide QuoteAllocation;
    if Quote(s, provider, market, env, cents).Ok? {
    }
  }

  /** The trade of an allocation of everything: the maximum, if it is still the quote after the announcement. */
  function AllocateAllOf(s: State, provider: string, market: Market, env: Env, announced: bool, later: Env,
                         secrets: Secrets, hash: Payload -> Id): (r: Result<Option<Intent>, StableError>)
    ensures CanPropose(r, s)
  {
    if s.paused || s.pending.Some? || s.inbox != [] then Err(Busy)
    else
      var q :- MaximumQuote(s, provider, market, env);
      if !announced then Err(StoreFailed) else TradeOf(s, provider, market, later, q, secrets, hash)
  }

  lemma TickCanPropose(s: State, provider: string, market: Market, env: Env, secrets: Secrets)
    requires Settled(s)
    ensures CanPropose(TickIntent(s, provider, market, env, secrets), s)
    ensures var i := TickIntent(s, provider, market, env, secrets);
            i.Ok? && i.value.Some? ==> i.value.value.paymentId == secrets.paymentId
  {
    if TickIntent(s, provider, market, env, secrets).Ok? && TickIntent(s, provider, market, env, secrets).value.Some? {
      TickPaysTheExcess(s, provider, market, env, secrets);
    }
    hide SettlementDecision, Applicable;
  }

  /** A tick works off the inbox, and then pays the settlement that is due. */
  function Tick(m: Image<State>, stopped: bool, flushOk: bool, provider: string, market: Market, inbox: InboxFate,
                env: Env, secrets: Secrets, f: SendFate): Ended
    requires PendingTyped(m.memory)
  {
    if stopped then Ended(m, Err(Stopped))
    else if !FlushWorks(m, flushOk) then Ended(m, Err(StoreFailed))
    else
      var d := Drain(Flushed(m, flushOk), market, inbox, 0);
      if d.result.Err? then d
      else
        DrainLeavesOnlyWaiting(Flushed(m, flushOk), market, inbox, 0);
        TickCanPropose(d.image.memory, provider, market, env, secrets);
        Paid(d.image, TickIntent(d.image.memory, provider, market, env, secrets), f)
  }

  function TickSends(m: Image<State>, stopped: bool, flushOk: bool, provider: string, market: Market, inbox: InboxFate,
                     env: Env, secrets: Secrets, f: SendFate): seq<Intent>
    requires PendingTyped(m.memory)
  {
    if stopped || !FlushWorks(m, flushOk) then []
    else
      var d := Drain(Flushed(m, flushOk), market, inbox, 0);
      if d.result.Err? then []
      else PaidSends(d.image, TickIntent(d.image.memory, provider, market, env, secrets), f)
  }

  // ----- the first conversion -----

  predicate FirstDue(s: State)
  {
    && s.firstReceive.Some? && s.firstReceive.value.received.Some? && !s.firstReceive.value.attempted
    && s.position.None? && s.pending.None? && !s.paused
  }

  /** The trade that converts the first received payment, if it is due. */
  function FirstIntent(s: State, provider: string, market: Market, env: Env, secrets: Secrets, hash: Payload -> Id)
    : (r: Result<Option<Intent>, StableError>)
    ensures CanPropose(r, s)
  {
    if !FirstDue(s) then Ok(None)
    else if !MaySend(env) then Err(WaitForSync)
    else
      var channel :- ReadyChannel(s, provider, env);
      if channel.channelId != s.firstReceive.value.received.value.channelId then Err(Refused(OtherChannel))
      else
        var price :- RequirePrice(market, env.now);
        var target := SearchMax(FreshAccepts(price.priceCents, channel.spendableSats, channel.receiverSats),
                                1, FirstHigh(channel.receiverSats, price.priceCents), 0);
        if target == 0 then Err(Refused(TooSmall))
        else
          var q :- Quote(s, provider, market, env, target);
          TradeOf(s, provider, market, env, q, secrets, hash)
  }

  /** A conversion that is due, in a wallet that may send, over the channel that received the payment. */
  predicate FirstReady(s: State, provider: string, market: Market, env: Env)
  {
    && FirstDue(s) && MaySend(env) && ReadyChannel(s, provider, env).Ok? && RequirePrice(market, env.now).Ok?
    && env.channel.channel.channelId == s.firstReceive.value.received.value.channelId
  }

  /**
   * The first conversion commits the greatest target that a fresh allocation accepts in the search range and calls the
   * payment too small only when there is none, exactly when the price and the channel are FirstSearchable; in
   * every other case it calls the payment too small although a target would be accepted.
   */
  lemma FirstConversionIsGreatest(s: State, provider: string, market: Market, env: Env, secrets: Secrets, hash: Payload -> Id)
    requires FirstReady(s, provider, market, env)
    ensures var channel, price := env.channel.channel, RequirePrice(market, env.now).value;
            var accepts := FreshAccepts(price.priceCents, channel.spendableSats, channel.receiverSats);
            var high := (channel.receiverSats * price.priceCents) / 100_000_000;
            var intent := FirstIntent(s, provider, market, env, secrets, hash);
            if FirstSearchable(price.priceCents, channel.spendableSats, channel.receiverSats) then
              && (intent.Ok? ==>
                    && intent.value.Some?
                    && intent.value.value.target % CENT == 0
                    && IsGreatest(accepts, 1, high, intent.value.value.target / CENT))
              && (intent == Err(Refused(TooSmall)) ==> forall j | 1 <= j <= high :: !accepts(j))
              && (intent.Err? ==>
                    || (forall j | 1 <= j <= high :: !accepts(j))
                    || s.inbox != [] || channel.inboundSats == 0 || high * CENT > MAX_USD_UNITS)
            else
              && intent == Err(Refused(TooSmall))
              && exists j :: 1 <= j <= high && accepts(j)
  {
    var channel, price := env.channel.channel, RequirePrice(market, env.now).value;
    var accepts := FreshAccepts(price.priceCents, channel.spendableSats, channel.receiverSats);
    var high := FirstHigh(channel.receiverSats, price.priceCents);
    FirstSearchRightIff(price.priceCents, channel.spendableSats, channel.receiverSats);
    var target := SearchMax(accepts, 1, high, 0);
    if FirstSearchable(price.priceCents, channel.spendableSats, channel.receiverSats) {
      if target > 0 && s.inbox == [] {
        FirstQuoteAgrees(s, provider, market, env, target);
      }
      assert accepts(target) <==> QuoteAllocation(0, 0, target, price.priceCents, channel.spendableSats, channel.receiverSats, 100).Ok?;
      hide SearchMax, FreshAccepts, Quote, FirstHigh, FirstSearchable, QuoteAllocation;
      if Quote(s, provider, market, env, target).Ok? {
        QuoteNamesTarget(s, provider, market, env, target);
        OwnQuoteCommits(s, provider, market, env, target, secrets, hash);
        assert (target * CENT) / CENT == target && (target * CENT) % CENT == 0;
      }
    } else {
      SearchInTinyChannel(price.priceCents, channel.spendableSats, channel.receiverSats);
      hide SearchMax, FreshAccepts, Quote, FirstHigh, FirstSearchable, FirstWorthASat;
    }
  }

  /** A quote that was just given can be committed. */
  lemma OwnQuoteCommits(s: State, provider: string, market: Market, env: Env, target: int, secrets: Secrets, hash: Payload -> Id)
    ensures match Quote(s, provider, market, env, target)
            case Ok(q) => TradeOf(s, provider, market, env, q, secrets, hash).Ok?
            case Err(_) => true
  {
    QuoteNamesTarget(s, provider, market, env, target);
    hide Quote, MaySend, ReadyChannel;
  }

  lemma QuoteNamesTarget(s: State, provider: string, market: Market, env: Env, target: int)
    ensures match Quote(s, provider, market, env, target)
            case Err(_) => true
            case Ok(q) => q.targetCents == target
  {
    hide QuoteAllocation;
    if Quote(s, provider, market, env, target).Ok? {
    }
  }

  /**
   * A channel in which the search misses every accepted target: with ten dollar-cents to the satoshi, one spendable
   * satoshi and no channel reserve it refuses, although ten cents would be accepted. Only channels that
   * hold one or two satoshis, reserve included, can fail in this way.
   */
  lemma FirstSearchCanMiss()
    ensures var accepts := FreshAccepts(1_000_000_000, 1, 1);
            && FirstHigh(1, 1_000_000_000) == 10
            && accepts(10)
            && SearchMax(accepts, 1, 10, 0) == 0
  {
    var accepts := FreshAccepts(1_000_000_000, 1, 1);
    ProbeAt(10);
    ProbeAt(5);
    ProbeAt(2);
    ProbeAt(1);
    hide FreshAccepts;
    assert SearchMax(accepts, 1, 0, 0) == 0;
    assert SearchMax(accepts, 1, 1, 0) == 0;
    assert SearchMax(accepts, 1, 4, 0) == 0;
  }

  lemma ProbeAt(target: int)
    requires 1 <= target <= 10
    ensures FreshAccepts(1_000_000_000, 1, 1)(target) <==> target == 10
  {
    FreshAcceptsIff(target, 1_000_000_000, 1, 1);
    DivUnique(target * SATS, 1_000_000_000, target / 10);
    DivUnique(target * SATS, 99 * 1_000_000_000, 0);
  }
}
