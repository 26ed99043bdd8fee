/**
 * The stable-balance client. Its methods change the persisted state through
 * the store and call LDK; a ghost trace records them as a run of StableRuns, so
 * what is proved there of every run holds of every history of this object.
 */
module StableClient {
  import opened Results
  import opened StableTypes
  import opened StableStore
  import opened StableChanges
  import opened StableMath
  import opened StablePayments
  import opened StableQuotes
  import opened StableOperations
  import opened StableRuns
  import opened StablePromises

  /** The image without the logs. */
  ghost function Strip(m: Image<Copy>): Image<State>
  {
    Image(m.remotely, m.memory.state, m.dirty, m.version,
          if m.local.Some? then Some(m.local.value.state) else None,
          if m.remote.Some? then Some(Remote(m.remote.value.version, m.remote.value.value.state)) else None)
  }

  lemma StripSaved(m: Image<Copy>, next: Copy, luck: Luck)
    ensures Strip(Saved(m, next, luck)) == Saved(Strip(m), next.state, luck)
    ensures SaveWorks(Strip(m), luck) == SaveWorks(m, luck)
  {
  }

  lemma StripCoherent(m: Image<Copy>, initial: Copy)
    requires Coherent(m, initial)
    ensures Coherent(Strip(m), initial.state)
  {
  }

  lemma StripReloaded(m: Image<Copy>, initial: Copy)
    ensures Strip(Reloaded(m, initial)) == Reloaded(Strip(m), initial.state)
    ensures Strip(m).memory == m.memory.state
  {
  }

  lemma StripFlushed(m: Image<Copy>, ok: bool)
    ensures Strip(Flushed(m, ok)) == Flushed(Strip(m), ok)
    ensures FlushWorks(Strip(m), ok) == FlushWorks(m, ok)
  {
  }

  class StableClient {
    const store: Persistence<State>
    const provider: string
    const hash: Payload -> Id
    var market: Market
    var stopped: bool
    ghost var trace: seq<World>

    ghost function Now(): World
      requires trace != []
      reads this
    {
      trace[|trace| - 1]
    }

    /** The trace is a run, and its last world is what the store holds. */
    ghost predicate Consistent()
      reads this, store
    {
      && store.Valid()
      && store.initial == InitialState(store.initial.provider)
      && trace != []
      && IsRun(trace, store.remotely, store.initial.provider)
      && Strip(Now().store) == store.Value()
      && PendingTyped(store.state)
    }

    /** Between operations no payment attempt is under way. */
    ghost predicate Valid()
      reads this, store
    {
      Consistent() && Now().phase == Resting
    }

    /** A crash now would bring back the state in memory. */
    ghost predicate Durable()
      reads store
    {
      Recovered(store.Value(), store.initial) == store.state
    }

    constructor (store: Persistence<State>, provider: string, hash: Payload -> Id)
      requires store.Valid() && store.initial == InitialState(store.initial.provider)
      requires store.Value() == Image(store.remotely, store.initial, false, 0, None, None)
      ensures Valid() && !stopped && market == Market(None, false)
      ensures this.store == store && this.provider == provider && this.hash == hash
      ensures trace == [Start(store.remotely, store.initial.provider)]
    {
      this.store, this.provider, this.hash := store, provider, hash;
      market, stopped := Market(None, false), false;
      trace := [Start(store.remotely, store.initial.provider)];
    }

    lemma InvNow()
      requires Consistent()
      ensures Inv(Now(), store.initial.provider)
      ensures Now().store.memory.state == store.state && Now().store.dirty == store.pendingLocal.Some?
    {
      EveryRunKeepsInv(trace, store.remotely, store.initial.provider, |trace| - 1);
    }

    lemma PendingNow()
      requires Consistent()
      ensures SettlementMatches(store.state) && (store.state.pending.Some? ==> store.state.enabled)
    {
      InvNow();
    }

    ghost method Account(e: Event)
      requires trace != []
      requires IsRun(trace, store.remotely, store.initial.provider)
      requires Enabled(Now(), e)
      requires store.Valid() && store.initial == InitialState(store.initial.provider)
      requires Strip(After(Now(), e, store.initial.provider).store) == store.Value()
      modifies `trace
      ensures Consistent()
      ensures |trace| == |old(trace)| + 1 && old(trace) <= trace
      ensures Now() == After(old(Now()), e, store.initial.provider)
    {
      var w := Now();
      var v := After(w, e, store.initial.provider);
      assert Step(w, v, store.initial.provider);
      trace := trace + [v];
      EveryRunKeepsInv(trace, store.remotely, store.initial.provider, |trace| - 1);
      assert v.store.memory.state == store.state;
      hide IsRun, After, Enabled, Step;
    }

    // ----- saving -----

    /** The start of every serialised operation. */
    method Begin(flushOk: bool) returns (r: Result<bool, StableError>)
      requires Valid()
      modifies this`trace, store
      ensures Valid() && old(trace) <= trace && Now().sends == old(Now().sends) && Now().issued == old(Now().issued)
      ensures r == if stopped then Err(Stopped)
                   else if FlushWorks(old(store.Value()), flushOk) then Ok(true) else Err(StoreFailed)
      ensures store.Value() == if r.Ok? then Flushed(old(store.Value()), flushOk) else old(store.Value())
      ensures store.state == old(store.state) && (r.Ok? ==> store.pendingLocal.None?)
      ensures r.Ok? <==> !stopped && (old(store.pendingLocal.Some?) ==> flushOk)
    {
      if stopped {
        return Err(Stopped);
      }
      assert trace != [];
      hide IsRun, Enabled;
      StripFlushed(Now().store, flushOk);
      var flushed := store.Flush(flushOk);
      assert Enabled(Now(), FlushLocal(flushOk)) by { CanFlush(Now(), flushOk); }
      Account(FlushLocal(flushOk));
      r := if flushed then Ok(true) else Err(StoreFailed);
    }

    /** Save one change. */
    method TrySave(change: Change, luck: Luck) returns (done: bool)
      requires Consistent() && store.pendingLocal.None?
      requires Applicable(change, store.state) && UsesFreshId(change, Now().issued)
      requires Now().phase == Resting <==> change != Withdraw
      modifies this`trace, store
      ensures Consistent() && old(trace) <= trace && Now().sends == old(Now().sends)
      ensures store.Value() == Saved(old(store.Value()), Apply(change, old(store.state)), luck)
      ensures done == SaveWorks(old(store.Value()), luck)
      ensures Now().phase == if change.Propose? && done then Armed(change.intent) else Resting
      ensures Now().issued == IssuedAfter(change, old(Now().issued))
      ensures done ==> store.state == Apply(change, old(store.state)) && store.pendingLocal.None? && Durable()
    {
      InvNow();
      SaveLasts(Now().store, Apply(change, store.state), luck);
      StripSaved(Now().store, Next(change, Now().store.memory), luck);
      hide IsRun, Inv, Applicable, Apply, LogAfter, UsesFreshId;
      SavedIsOldOrNew(store.Value(), Apply(change, store.state), luck);
      done := store.Save(Apply(change, store.state), luck);
      Account(Event.Save(change, luck));
      hide Saved, SaveWorks;
    }

    /** Save one change as the last thing an operation does. */
    method SaveLast(change: Change, luck: Luck) returns (r: Result<bool, StableError>)
      requires Valid() && store.pendingLocal.None?
      requires Applicable(change, store.state) && !change.Propose? && change != Withdraw
      modifies this`trace, store
      ensures Valid() && old(trace) <= trace && Now().sends == old(Now().sends)
      ensures store.Value() == Saved(old(store.Value()), Apply(change, old(store.state)), luck)
      ensures r == if SaveWorks(old(store.Value()), luck) then Ok(true) else Err(StoreFailed)
      ensures r.Ok? ==> store.state == Apply(change, old(store.state)) && Durable()
    {
      hide IsRun, Applicable, Apply, Saved, SaveWorks;
      var done := TrySave(change, luck);
      r := if done then Ok(true) else Err(StoreFailed);
    }

    /** The client runs, and neither the flush nor the save meets a fault. */
    ghost predicate Smooth(flushOk: bool, luck: Luck)
      reads this, store
    {
      !stopped && (store.pendingLocal.Some? ==> flushOk) && AllWell(store.Value(), luck)
    }

    lemma SmoothSaves(flushOk: bool, next: State, luck: Luck)
      requires Smooth(flushOk, luck)
      ensures !stopped && (store.pendingLocal.Some? ==> flushOk)
      ensures FlushWorks(store.Value(), flushOk) && SaveWorks(Flushed(store.Value(), flushOk), luck)
    {
      AllWellSaves(store.Value(), flushOk, next, luck);
    }

    /** What a save that works has written is what a crash would bring back. */
    lemma SaveLasts(m: Image<Copy>, next: State, luck: Luck)
      requires Coherent(m, InitialCopy(store.initial.provider)) && !m.dirty
      requires store.initial == InitialState(store.initial.provider)
      ensures SaveWorks(Strip(m), luck) ==> Recovered(Saved(Strip(m), next, luck), store.initial) == next
    {
      StripCoherent(m, InitialCopy(store.initial.provider));
      SaveMovesDrift(Strip(m), store.initial, next, luck);
    }

    // ----- operations that save once -----

    method Enable(flushOk: bool, luck: Luck) returns (r: Result<bool, StableError>)
      requires Valid()
      modifies this`trace, store
      ensures Valid() && old(trace) <= trace && Now().sends == old(Now().sends)
      ensures Ended(store.Value(), r)
           == Serial(old(store.Value()), stopped, flushOk, Ok(Some(Change.Enable(provider))), luck)
      ensures r == Ok(true) ==> Durable() && store.state == old(store.state).(revision := old(store.state.revision) + 1,
                                                                             enabled := true, provider := provider)
      ensures old(Smooth(flushOk, luck)) ==> r == Ok(true)
    {
      hide IsRun, Saved, SaveWorks, Flushed, FlushWorks, Smooth;
      if Smooth(flushOk, luck) {
        SmoothSaves(flushOk, store.state, luck);
      }
      var begun := Begin(flushOk);
      if begun.Err? {
        return begun;
      }
      r := SaveLast(Change.Enable(provider), luck);
    }

    method PrepareFirstReceive(paymentHash: Id, flushOk: bool, luck: Luck) returns (r: Result<bool, StableError>)
      requires Valid()
      modifies this`trace, store
      ensures Valid() && old(trace) <= trace && Now().sends == old(Now().sends)
      ensures Ended(store.Value(), r)
           == Serial(old(store.Value()), stopped, flushOk, PrepareDecision(old(store.state), provider, paymentHash), luck)
      ensures r == Ok(true) ==>
                Durable() && Untouched(old(store.state)) && PrepareTold(old(store.state), provider, paymentHash, store.state)
      ensures old(Smooth(flushOk, luck) && Untouched(store.state)) ==> r == Ok(true)
      ensures r == Ok(false) ==> store.state == old(store.state)
    {
      hide IsRun, Apply, Saved, SaveWorks, Flushed, FlushWorks, Smooth;
      if Smooth(flushOk, luck) {
        SmoothSaves(flushOk, store.state, luck);
      }
      PrepareKeepsPromises(store.state, provider, paymentHash);
      var begun := Begin(flushOk);
      if begun.Err? {
        return begun;
      }
      if !CanPrepareFirst(store.state) {
        return Ok(false);
      }
      r := SaveLast(PrepareFirst(provider, paymentHash), luck);
    }

    method Pause(paused: bool, flushOk: bool, luck: Luck) returns (r: Result<bool, StableError>)
      requires Valid()
      modifies this`trace, store
      ensures Valid() && old(trace) <= trace && Now().sends == old(Now().sends)
      ensures Ended(store.Value(), r)
           == Serial(old(store.Value()), stopped, flushOk, Ok(Some(Change.Pause(paused))), luck)
      ensures r == Ok(true) ==> Durable() && store.state == old(store.state).(revision := old(store.state.revision) + 1,
                                                                             paused := paused)
      ensures old(Smooth(flushOk, luck)) ==> r == Ok(true)
    {
      hide IsRun, Saved, SaveWorks, Flushed, FlushWorks, Smooth;
      if Smooth(flushOk, luck) {
        SmoothSaves(flushOk, store.state, luck);
      }
      var begun := Begin(flushOk);
      if begun.Err? {
        return begun;
      }
      r := SaveLast(Change.Pause(paused), luck);
    }

    method ClearClosedPosition(env: Env, flushOk: bool, luck: Luck) returns (r: Result<bool, StableError>)
      requires Valid()
      modifies this`trace, store
      ensures Valid() && old(trace) <= trace && Now().sends == old(Now().sends)
      ensures Ended(store.Value(), r)
           == Serial(old(store.Value()), stopped, flushOk, ClearDecision(old(store.state), env), luck)
      ensures r.Ok? ==>
                && Durable() && Clearable(old(store.state), env)
                && store.state == old(store.state).(revision := old(store.state.revision) + 1, position := None)
      ensures old(Smooth(flushOk, luck)) && Clearable(old(store.state), env) ==> r.Ok?
    {
      hide IsRun, Apply, Saved, SaveWorks, Flushed, FlushWorks, Smooth;
      if Smooth(flushOk, luck) {
        SmoothSaves(flushOk, store.state, luck);
      }
      ClearKeepsPromises(store.state, env);
      var begun := Begin(flushOk);
      if begun.Err? {
        return begun;
      }
      var state := store.state;
      if state.position.None? {
        return Err(Refused(StillOpen));
      }
      match env.channel {
        case Ambiguous => return Err(ChannelAmbiguous);
        case Absent =>
        case Direct(channel) =>
          if channel.channelId == state.position.value.channelId {
            return Err(Refused(StillOpen));
          }
      }
      if state.pending.Some? || state.inbox != [] {
        return Err(Busy);
      }
      r := SaveLast(ClearClosed, luck);
    }

    method RebindSplicedChannel(oldChannelId: Id, newChannelId: Id, flushOk: bool, luck: Luck)
      returns (r: Result<bool, StableError>)
      requires Valid()
      modifies this`trace, store
      ensures Valid() && old(trace) <= trace && Now().sends == old(Now().sends)
      ensures Ended(store.Value(), r)
           == Serial(old(store.Value()), stopped, flushOk,
                     RebindDecision(old(store.state), oldChannelId, newChannelId), luck)
      ensures r == Ok(true) ==>
                && Durable() && Movable(old(store.state), oldChannelId, newChannelId)
                && store.state == old(store.state).(revision := old(store.state.revision) + 1,
                                                    position := Some(old(store.state).position.value.(channelId := newChannelId)))
      ensures old(Smooth(flushOk, luck)) && Movable(old(store.state), oldChannelId, newChannelId) ==> r == Ok(true)
      ensures r == Ok(false) ==> store.state == old(store.state)
    {
      hide IsRun, Apply, Saved, SaveWorks, Flushed, FlushWorks, Smooth;
      if Smooth(flushOk, luck) {
        SmoothSaves(flushOk, store.state, luck);
      }
      RebindKeepsPromises(store.state, oldChannelId, newChannelId);
      var begun := Begin(flushOk);
      if begun.Err? {
        return begun;
      }
      var state := store.state;
      if state.pending.Some? || state.inbox != [] {
        return Err(Busy);
      }
      if state.position.None? || state.position.value.channelId == newChannelId {
        return Ok(false);
      }
      if state.position.value.channelId != oldChannelId {
        return Err(Refused(OtherChannel));
      }
      r := SaveLast(Rebind(newChannelId), luck);
    }

    /** LDK's verdict on an outgoing payment. */
    method OnOutcome(paymentId: Id, sent: bool, now: int, flushOk: bool, luck: Luck) returns (r: Result<bool, StableError>)
      requires Valid()
      modifies this`trace, store
      ensures Valid() && old(trace) <= trace && Now().sends == old(Now().sends)
      ensures Ended(store.Value(), r)
           == Serial(old(store.Value()), stopped, flushOk, OutcomeDecision(old(store.state), paymentId, sent, now), luck)
      ensures var s := old(store.state);
              var ours := s.pending.Some? && s.pending.value.paymentId == paymentId;
              && (r == Ok(true) ==> ours && Durable() && OutcomeTold(s, sent, now, store.state))
              && (ours && old(Smooth(flushOk, luck)) ==> r == Ok(true))
              && (!ours ==> store.state == s && r != Ok(true))
    {
      hide IsRun, Inv, Apply, Saved, SaveWorks, Flushed, FlushWorks, Smooth, OutcomeTold, SettlementMatches;
      if Smooth(flushOk, luck) {
        SmoothSaves(flushOk, store.state, luck);
      }
      PendingNow();
      OutcomeKeepsPromises(store.state, paymentId, sent, now);
      var begun := Begin(flushOk);
      if begun.Err? {
        return begun;
      }
      var state := store.state;
      if !HandlesOutcome(state, paymentId) {
        return Ok(false);
      }
      if !sent {
        r := SaveLast(PayFailed, luck);
      } else if state.pending.value.kind == Trade {
        r := SaveLast(TradePaid, luck);
      } else if state.position.None? {
        r := Err(MissingPosition);
      } else {
        r := SaveLast(SettlementPaid(now), luck);
      }
    }

    /** The records of a payment that are meant for this channel. */
    method FilterRecords(records: seq<Record>, channelId: Id) returns (kept: seq<Record>)
      ensures kept == RelevantRecords(records, channelId)
    {
      kept := [];
      var i := 0;
      while i < |records|
        invariant 0 <= i <= |records|
        invariant kept + RelevantRecords(records[i..], channelId) == RelevantRecords(records, channelId)
      {
        var r := records[i];
        assert records[i..][1..] == records[i + 1..];
        if (r.tlv == TRADE_TLV || r.tlv == SETTLEMENT_TLV) && r.message.Some?
           && r.message.value.channelId == channelId {
          kept := kept + [r];
        }
        i := i + 1;
      }
    }

    /** A claimed payment is made durable before LDK drops its event. */
    method OnReceived(paymentId: Id, amountMsat: nat, channelIds: seq<Id>, records: seq<Record>, env: Env,
                      flushOk: bool, luck: Luck)
      returns (r: Result<bool, StableError>)
      requires Valid()
      modifies this`trace, store
      ensures Valid() && old(trace) <= trace && Now().sends == old(Now().sends)
      ensures Ended(store.Value(), r)
           == Serial(old(store.Value()), stopped, flushOk,
                     ReceiveDecision(old(store.state), paymentId, amountMsat, channelIds, records, env), luck)
      ensures var s := old(store.state);
              var first := FirstArrives(s, paymentId, amountMsat, channelIds, env);
              var queues := Queues(s, paymentId, channelIds, records, env);
              && (r == Ok(true) ==>
                    && Durable() && (first || queues)
                    && if first then FirstTold(s, paymentId, amountMsat, env, store.state)
                       else QueueTold(s, paymentId, amountMsat, channelIds, records, env, store.state))
              && ((first || queues) && old(Smooth(flushOk, luck)) ==> r == Ok(true))
              && (!first && !queues ==> store.state == s && r != Ok(true))
    {
      hide IsRun, Apply, Saved, SaveWorks, Flushed, FlushWorks, FirstTold, QueueTold, Queues, FirstArrives, Smooth,
        ReceiveDecision;
      if Smooth(flushOk, luck) {
        SmoothSaves(flushOk, store.state, luck);
      }
      ReceiveKeepsPromises(store.state, paymentId, amountMsat, channelIds, records, env);
      var begun := Begin(flushOk);
      if begun.Err? {
        return begun;
      }
      r := KeepPayment(paymentId, amountMsat, channelIds, records, env, luck);
    }

    /** The first receive, a place in the inbox, or nothing. */
    method KeepPayment(paymentId: Id, amountMsat: nat, channelIds: seq<Id>, records: seq<Record>, env: Env, luck: Luck)
      returns (r: Result<bool, StableError>)
      requires Valid() && store.pendingLocal.None?
      modifies this`trace, store
      ensures Valid() && old(trace) <= trace && Now().sends == old(Now().sends)
      ensures match ReceiveDecision(old(store.state), paymentId, amountMsat, channelIds, records, env)
              case Err(error) => r == Err(error) && store.Value() == old(store.Value())
              case Ok(None) => r == Ok(false) && store.Value() == old(store.Value())
              case Ok(Some(c)) =>
                && store.Value() == Saved(old(store.Value()), Apply(c, old(store.state)), luck)
                && r == (if SaveWorks(old(store.Value()), luck) then Ok(true) else Err(StoreFailed))
                && (r.Ok? ==> store.state == Apply(c, old(store.state)) && Durable())
    {
      hide IsRun, Apply, Saved, SaveWorks, RelevantRecords, HandlesReceived;
      var state := store.state;
      var first := state.firstReceive;
      if first.Some? && first.value.received.None? && paymentId in first.value.hashes {
        match env.channel {
          case Ambiguous => r := Err(ChannelAmbiguous);
          case Absent => r := Ok(false);
          case Direct(channel) =>
            if channel.channelId !in channelIds || amountMsat < 1000 {
              return Ok(false);
            }
            r := SaveLast(FirstReceived(Received(paymentId, channel.channelId, amountMsat / 1000)), luck);
        }
        return;
      }
      if !HandlesReceived(state, paymentId, records) || KnownPayment(state, paymentId) || InInbox(state.inbox, paymentId) {
        return Ok(false);
      }
      match env.channel {
        case Ambiguous => r := Err(ChannelAmbiguous);
        case Absent => r := Ok(false);
        case Direct(channel) =>
          if channel.channelId !in channelIds {
            return Ok(false);
          }
          var relevant := FilterRecords(records, channel.channelId);
          if relevant == [] {
            return Ok(false);
          }
          r := SaveLast(Enqueue(InboxEntry(paymentId, amountMsat, channelIds, env.now, relevant)), luck);
      }
    }

    /** A new price, or the failure to get one. */
    method Refresh(reply: Option<FeedPrice>, flushOk: bool) returns (r: Result<bool, StableError>)
      requires Valid()
      modifies this`trace, this`market, store
      ensures Valid() && old(trace) <= trace && Now().sends == old(Now().sends)
      ensures var begun := !stopped && FlushWorks(old(store.Value()), flushOk);
              && store.Value() == (if begun then Flushed(old(store.Value()), flushOk) else old(store.Value()))
              && market == (if !begun then old(market)
                            else if reply.Some? then Market(reply, false) else old(market).(quarantined := true))
              && (r.Ok? <==> begun && reply.Some?)
    {
      hide IsRun, Flushed, FlushWorks;
      var begun := Begin(flushOk);
      if begun.Err? {
        return begun;
      }
      match reply {
        case Some(price) =>
          market := Market(Some(price), false);
          r := Ok(true);
        case None =>
          market := market.(quarantined := true);
          r := Err(NoFreshPrice);
      }
    }

    /** From here on every operation is refused. */
    method Stop()
      requires Valid()
      modifies this`stopped
      ensures Valid() && stopped
    {
      stopped := true;
    }

    /** The page goes away; a new one reads what the disk holds. */
    method Restart()
      requires Consistent()
      modifies this, store
      ensures Valid() && old(trace) <= trace && Now().sends == old(Now().sends)
      ensures !stopped && market == Market(None, false)
      ensures store.Value() == Reloaded(old(store.Value()), store.initial)
    {
      StripReloaded(Now().store, InitialCopy(store.initial.provider));
      hide IsRun;
      store.Load();
      market, stopped := Market(None, false), false;
      Account(Crash);
    }

    // ----- operations that may end in a payment -----

    /** Save the intent, look at the wallet once more, call LDK, and take the intent back if nothing left. */
    method Send(intent: Intent, fate: SendFate) returns (r: Result<bool, StableError>)
      requires Valid() && store.pendingLocal.None?
      requires Applicable(Propose(intent), store.state) && intent.paymentId !in Now().issued
      modifies this`trace, store
      ensures Valid() && old(trace) <= trace
      ensures Ended(store.Value(), r) == SendEnd(old(store.Value()), intent, fate)
      ensures Now().sends == old(Now().sends) + if CallsLdk(old(store.Value()), fate) then [intent] else []
    {
      ghost var m := store.Value();
      ProposedPends(intent, m.memory);
      hide IsRun, Apply, Saved, SaveWorks, MaySend, Applicable;
      var saved := TrySave(Propose(intent), fate.save);
      if !saved {
        return Err(StoreFailed);
      }
      if !MaySend(fate.env) {
        var undone := TrySave(Withdraw, fate.undo);
        return Err(if undone then WaitForSync else StoreFailed);
      }
      Account(Launch);
      match fate.reply {
        case Delivered =>
          Account(Rest);
          r := Ok(true);
        case RejectedBeforeSending =>
          var undone := TrySave(Withdraw, fate.undo);
          r := Err(if undone then SendRejected else StoreFailed);
        case OtherFailure =>
          Account(Rest);
          r := Err(SendFailed);
      }
    }

    /** Quote again, compare with what was reviewed, and send. */
    method CommitQuote(quote: TradeQuote, env: Env, secrets: Secrets, fate: SendFate) returns (r: Result<bool, StableError>)
      requires Valid() && store.pendingLocal.None? && secrets.paymentId !in Now().issued
      modifies this`trace, store
      ensures Valid() && old(trace) <= trace
      ensures Ended(store.Value(), r)
           == Paid(old(store.Value()), TradeOf(old(store.state), provider, market, env, quote, secrets, hash), fate)
      ensures Now().sends == old(Now().sends)
           + PaidSends(old(store.Value()), TradeOf(old(store.state), provider, market, env, quote, secrets, hash), fate)
    {
      hide IsRun, Apply, Saved, SaveWorks, Applicable, SendEnd, CommitIntent;
      var intent := CommitIntent(store.state, provider, market, env, quote, secrets, hash);
      match intent {
        case Err(error) => r := Err(error);
        case Ok(i) =>
          CommitIsWhatWasReviewed(store.state, provider, market, env, quote, secrets, hash);
          r := Send(i, fate);
      }
    }

    method Commit(quote: TradeQuote, env: Env, secrets: Secrets, flushOk: bool, fate: SendFate)
      returns (r: Result<bool, StableError>)
      requires Valid() && secrets.paymentId !in Now().issued
      modifies this`trace, store
      ensures Valid() && old(trace) <= trace
      ensures Ended(store.Value(), r)
           == Attempt(old(store.Value()), stopped, flushOk,
                      TradeOf(old(store.state), provider, market, env, quote, secrets, hash), fate)
      ensures Now().sends == old(Now().sends)
           + AttemptSends(old(store.Value()), stopped, flushOk,
                          TradeOf(old(store.state), provider, market, env, quote, secrets, hash), fate)
    {
      hide IsRun, TradeOf, Paid, CanPropose, Flushed, FlushWorks;
      var begun := Begin(flushOk);
      if begun.Err? {
        return begun;
      }
      r := CommitQuote(quote, env, secrets, fate);
    }

    /** The greatest target that a quote accepts now. */
    method QuoteMaximum(env: Env) returns (r: Result<TradeQuote, StableError>)
      ensures r == MaximumQuote(store.state, provider, market, env)
    {
      hide Quote, ReadyChannel, SearchMax, MaximumHigh, RoundedCents, MaximumQuote, Accepts;
      ghost var state := store.state;
      UnfoldMaximum(state, provider, market, env);
      var current := RoundedCents(Target(store.state));
      var best :- Quote(store.state, provider, market, env, current + 1);
      var channel :- ReadyChannel(store.state, provider, env);
      var low := current + 2;
      var high := MaximumHigh(current, channel.receiverSats, best.price.priceCents);
      ghost var accepts := Accepts(state, provider, market, env);
      ghost var answer := SearchMax(accepts, low, high, current + 1);
      ghost var bestTarget: int := current + 1;
      while low <= high
        invariant Quote(state, provider, market, env, bestTarget) == Ok(best)
        invariant SearchMax(accepts, low, high, bestTarget) == answer
        decreases high - low + 1
      {
        var mid := (low + high) / 2;
        UnfoldSearch(state, provider, market, env, low, high, bestTarget);
        var attempt := Quote(store.state, provider, market, env, mid);
        match attempt {
          case Ok(q) =>
            best, bestTarget := q, mid;
            low := mid + 1;
          case Err(_) =>
            high := mid - 1;
        }
      }
      UnfoldSearch(state, provider, market, env, low, high, bestTarget);
      r := Ok(best);
    }

    method AllocateAll(env: Env, announced: bool, later: Env, secrets: Secrets, flushOk: bool, fate: SendFate)
      returns (r: Result<bool, StableError>)
      requires Valid() && secrets.paymentId !in Now().issued
      modifies this`trace, store
      ensures Valid() && old(trace) <= trace
      ensures Ended(store.Value(), r)
           == Attempt(old(store.Value()), stopped, flushOk,
                      AllocateAllOf(old(store.state), provider, market, env, announced, later, secrets, hash), fate)
      ensures Now().sends == old(Now().sends)
           + AttemptSends(old(store.Value()), stopped, flushOk,
                          AllocateAllOf(old(store.state), provider, market, env, announced, later, secrets, hash), fate)
    {
      hide IsRun, TradeOf, CanPropose, Flushed, FlushWorks, MaximumQuote, SendEnd;
      var begun := Begin(flushOk);
      if begun.Err? {
        return begun;
      }
      var state := store.state;
      if state.paused || state.pending.Some? || state.inbox != [] {
        return Err(Busy);
      }
      var quote := QuoteMaximum(env);
      match quote {
        case Err(error) => r := Err(error);
        case Ok(q) =>
          if !announced {
            return Err(StoreFailed);
          }
          r := CommitQuote(q, later, secrets, fate);
      }
    }

    /** The binary search for the greatest first allocation, zero when none is found. */
    method SearchFirstTarget(channel: Channel, price: FeedPrice) returns (target: int)
      ensures target == SearchMax(FreshAccepts(price.priceCents, channel.spendableSats, channel.receiverSats),
                                  1, FirstHigh(channel.receiverSats, price.priceCents), 0)
    {
      hide QuoteAllocation;
      var low, high := 1, (channel.receiverSats * price.priceCents) / SATS;
      target := 0;
      ghost var accepts := FreshAccepts(price.priceCents, channel.spendableSats, channel.receiverSats);
      while low <= high
        invariant SearchMax(accepts, low, high, target)
               == SearchMax(accepts, 1, FirstHigh(channel.receiverSats, price.priceCents), 0)
        decreases high - low + 1
      {
        var mid := (low + high) / 2;
        if QuoteAllocation(0, 0, mid, price.priceCents, channel.spendableSats, channel.receiverSats, 100).Ok? {
          target := mid;
          low := mid + 1;
        } else {
          high := mid - 1;
        }
      }
    }

    method AutoConvertFirstReceive(env: Env, secrets: Secrets, flushOk: bool, fate: SendFate)
      returns (r: Result<bool, StableError>)
      requires Valid() && secrets.paymentId !in Now().issued
      modifies this`trace, store
      ensures Valid() && old(trace) <= trace
      ensures Ended(store.Value(), r)
           == Attempt(old(store.Value()), stopped, flushOk,
                      FirstIntent(old(store.state), provider, market, env, secrets, hash), fate)
      ensures Now().sends == old(Now().sends)
           + AttemptSends(old(store.Value()), stopped, flushOk,
                          FirstIntent(old(store.state), provider, market, env, secrets, hash), fate)
    {
      hide IsRun, TradeOf, CanPropose, Flushed, FlushWorks, SendEnd, Quote, SearchMax, FreshAccepts, MaySend,
        RequirePrice, FirstHigh, ReadyChannel;
      var begun := Begin(flushOk);
      if begun.Err? {
        return begun;
      }
      var state := store.state;
      if !FirstDue(state) {
        return Ok(false);
      }
      if !MaySend(env) {
        return Err(WaitForSync);
      }
      var ready := ReadyChannel(state, provider, env);
      if ready.Err? {
        return Err(ready.error);
      }
      if ready.value.channelId != state.firstReceive.value.received.value.channelId {
        return Err(Refused(OtherChannel));
      }
      var price := RequirePrice(market, env.now);
      if price.Err? {
        return Err(price.error);
      }
      var target := SearchFirstTarget(ready.value, price.value);
      if target == 0 {
        return Err(Refused(TooSmall));
      }
      var quote := Quote(state, provider, market, env, target);
      match quote {
        case Err(error) => r := Err(error);
        case Ok(q) => r := CommitQuote(q, env, secrets, fate);
      }
    }

    // ----- the inbox -----

    /** Judge one inbox entry and save what it asks for. */
    method ApplyPayment(entry: InboxEntry, env: Env, luck: Luck) returns (r: Result<bool, StableError>)
      requires Valid() && store.pendingLocal.None?
      requires entry in store.state.inbox && !Waits(store.state)
      modifies this`trace, store
      ensures Valid() && old(trace) <= trace && Now().sends == old(Now().sends) && Now().issued == old(Now().issued)
      ensures match Judge(old(store.state), entry, env, market)
              case Skip => r == Ok(false) && store.Value() == old(store.Value())
              case Fail(error) => r == Err(error) && store.Value() == old(store.Value())
              case Take(c) =>
                && Applicable(c, old(store.state))
                && store.Value() == Saved(old(store.Value()), Apply(c, old(store.state)), luck)
                && r == if SaveWorks(old(store.Value()), luck) then Ok(true) else Err(StoreFailed)
      ensures r.Ok? ==> store.pendingLocal.None?
      ensures var s := old(store.state);
              && (r == Ok(true) ==> Durable() && Answered(s, entry, env, market, store.state))
              && (r == Ok(false) ==> store.state == s && !Asks(s, entry, env, market))
              && (CanAnswer(s, entry, env, market) && AllWell(old(store.Value()), luck) ==> r == Ok(true))
    {
      JudgeKeepsPromises(store.state, entry, env, market);
      assert AllWell(store.Value(), luck) ==> SaveWorks(store.Value(), luck);
      hide IsRun, Inv, Applicable, Apply, Saved, SaveWorks, JudgeRecords, HandlesReceived, Answered, Asks, CanAnswer, AllWell,
        PendingTyped;
      var state := store.state;
      if !HandlesReceived(state, entry.paymentId, entry.records) || KnownPayment(state, entry.paymentId) {
        return Ok(false);
      }
      match env.channel {
        case Ambiguous => r := Err(ChannelAmbiguous);
        case Absent => r := Ok(false);
        case Direct(channel) =>
          if channel.channelId !in entry.channelIds {
            return Ok(false);
          }
          r := ApplyRecords(entry, channel, env, luck);
      }
    }

    /** The first record that is not skipped decides. */
    method ApplyRecords(entry: InboxEntry, channel: Channel, env: Env, luck: Luck) returns (r: Result<bool, StableError>)
      requires Valid() && store.pendingLocal.None?
      requires entry in store.state.inbox && !Waits(store.state) && !KnownPayment(store.state, entry.paymentId)
      modifies this`trace, store
      ensures Valid() && old(trace) <= trace && Now().sends == old(Now().sends) && Now().issued == old(Now().issued)
      ensures match JudgeRecords(old(store.state), entry, entry.records, channel, market, env.now)
              case Skip => r == Ok(false) && store.Value() == old(store.Value())
              case Fail(error) => r == Err(error) && store.Value() == old(store.Value())
              case Take(c) =>
                && Applicable(c, old(store.state))
                && store.Value() == Saved(old(store.Value()), Apply(c, old(store.state)), luck)
                && r == (if SaveWorks(old(store.Value()), luck) then Ok(true) else Err(StoreFailed))
                && (r.Ok? ==> store.state == Apply(c, old(store.state)) && Durable())
      ensures r.Ok? ==> store.pendingLocal.None?
    {
      InvNow();
      var state := store.state;
      VerdictIsSound(state, entry, entry.records, channel, market, env.now);
      hide IsRun, Inv, Applicable, Apply, Saved, SaveWorks, JudgeRecord;
      assert entry.records[0..] == entry.records;
      var i := 0;
      while i < |entry.records|
        invariant 0 <= i <= |entry.records|
        invariant JudgeRecords(state, entry, entry.records[i..], channel, market, env.now)
               == JudgeRecords(state, entry, entry.records, channel, market, env.now)
        invariant Valid() && trace == old(trace) && store.Value() == old(store.Value())
        invariant store.pendingLocal.None? && store.state == state
      {
        assert entry.records[i..][1..] == entry.records[i + 1..];
        match JudgeRecord(state, entry, entry.records[i], channel, market, env.now) {
          case Skip =>
          case Fail(error) => return Err(error);
          case Take(change) =>
            var done := TrySave(change, luck);
            return if done then Ok(true) else Err(StoreFailed);
        }
        i := i + 1;
      }
      r := Ok(false);
    }

    /** One round: the entry's effect is saved first, and only then is the entry removed. */
    method WorkOff(entry: InboxEntry, env: Env, effect: Luck, drop: Luck) returns (r: Result<bool, StableError>)
      requires Valid() && store.pendingLocal.None?
      requires store.state.inbox != [] && !Waits(store.state) && Turn(store.state) < |store.state.inbox|
      requires entry == store.state.inbox[Turn(store.state)]
      modifies this`trace, store
      ensures Valid() && old(trace) <= trace && Now().sends == old(Now().sends) && Now().issued == old(Now().issued)
      ensures OneRound(old(store.Value()), market, env, effect, drop)
           == if r.Ok? then Go(store.Value()) else Round.Stop(Ended(store.Value(), r))
      ensures r.Ok? ==> store.pendingLocal.None?
    {
      hide IsRun, Saved, SaveWorks, Judge, Turn, Applicable, Apply, Answered, Asks, CanAnswer, AllWell, Durable, KnownPayment;
      JudgeIsSound(store.state, entry, env, market);
      ghost var before := store.state;
      r := ApplyPayment(entry, env, effect);
      if r.Err? {
        return;
      }
      ghost var v := Judge(before, entry, env, market);
      if v.Take? {
        SavedIsOldOrNew(old(store.Value()), Apply(v.change, before), effect);
        TakenKeepsInbox(v.change, before);
      }
      CanDrop(store.state, entry);
      var done := TrySave(Drop(entry.paymentId), drop);
      r := if done then Ok(true) else Err(StoreFailed);
    }

    method ProcessInbox(fate: InboxFate, flushOk: bool) returns (r: Result<bool, StableError>)
      requires Valid()
      modifies this`trace, store
      ensures Valid() && old(trace) <= trace && Now().sends == old(Now().sends)
      ensures Ended(store.Value(), r)
           == if stopped then Ended(old(store.Value()), Err(Stopped))
              else if !FlushWorks(old(store.Value()), flushOk) then Ended(old(store.Value()), Err(StoreFailed))
              else Drain(Flushed(old(store.Value()), flushOk), market, fate, 0)
    {
      hide IsRun, Drain, Flushed, FlushWorks;
      var begun := Begin(flushOk);
      if begun.Err? {
        return begun;
      }
      r := ApplyInbox(fate);
    }

    /** Work off the inbox, then pay the settlement that is due. */
    method TickOnce(inbox: InboxFate, env: Env, secrets: Secrets, flushOk: bool, fate: SendFate)
      returns (r: Result<bool, StableError>)
      requires Valid() && secrets.paymentId !in Now().issued
      modifies this`trace, store
      ensures Valid() && old(trace) <= trace
      ensures Ended(store.Value(), r)
           == Tick(old(store.Value()), stopped, flushOk, provider, market, inbox, env, secrets, fate)
      ensures Now().sends == old(Now().sends)
           + TickSends(old(store.Value()), stopped, flushOk, provider, market, inbox, env, secrets, fate)
    {
      hide IsRun, Drain, Flushed, FlushWorks, TickIntent, SendEnd, Applicable;
      var begun := Begin(flushOk);
      if begun.Err? {
        return begun;
      }
      ghost var flushed := store.Value();
      r := ApplyInbox(inbox);
      if r.Err? {
        return;
      }
      DrainLeavesOnlyWaiting(flushed, market, inbox, 0);
      TickCanPropose(store.state, provider, market, env, secrets);
      match TickIntent(store.state, provider, market, env, secrets) {
        case Err(error) => r := Err(error);
        case Ok(None) => r := Ok(false);
        case Ok(Some(intent)) => r := Send(intent, fate);
      }
    }

    /** The entries in the order of the inbox, as long as one can be worked off. */
    method ApplyInbox(fate: InboxFate) returns (r: Result<bool, StableError>)
      requires Valid() && store.pendingLocal.None?
      modifies this`trace, store
      ensures Valid() && old(trace) <= trace && Now().sends == old(Now().sends) && Now().issued == old(Now().issued)
      ensures Ended(store.Value(), r) == Drain(old(store.Value()), market, fate, 0)
      ensures r.Ok? ==> store.pendingLocal.None?
    {
      hide IsRun, Apply, Saved, SaveWorks, Judge, Applicable, Turn, Answers;
      ghost var drained := Drain(store.Value(), market, fate, 0);
      var k := 0;
      while store.state.inbox != []
        invariant Valid() && store.pendingLocal.None?
        invariant old(trace) <= trace && Now().sends == old(Now().sends) && Now().issued == old(Now().issued)
        invariant Drain(store.Value(), market, fate, k) == drained
        decreases |store.state.inbox|
      {
        ghost var m := store.Value();
        RoundShrinks(m, market, fate.env(k), fate.effect(k), fate.drop(k));
        var state := store.state;
        if Waits(state) || Turn(state) == |state.inbox| {
          return Ok(true);
        }
        var entry := state.inbox[Turn(state)];
        r := WorkOff(entry, fate.env(k), fate.effect(k), fate.drop(k));
        if r.Err? {
          return;
        }
        k := k + 1;
      }
      r := Ok(true);
    }
  }

  lemma UnfoldMaximum(s: State, provider: string, market: Market, env: Env)
    ensures MaximumQuote(s, provider, market, env)
         == (var current := RoundedCents(Target(s));
             match Quote(s, provider, market, env, current + 1)
             case Err(error) => Err(error)
             case Ok(first) =>
               match ReadyChannel(s, provider, env)
               case Err(error) => Err(error)
               case Ok(channel) =>
                 Quote(s, provider, market, env,
                       SearchMax(Accepts(s, provider, market, env), current + 2,
                                 MaximumHigh(current, channel.receiverSats, first.price.priceCents), current + 1)))
  {
    hide Quote, ReadyChannel, SearchMax, RoundedCents;
  }

  lemma UnfoldSearch(s: State, provider: string, market: Market, env: Env, low: int, high: int, best: int)
    ensures var accepts := Accepts(s, provider, market, env);
            var mid := (low + high) / 2;
            SearchMax(accepts, low, high, best)
            == if low > high then best
               else if Quote(s, provider, market, env, mid).Ok? then SearchMax(accepts, mid + 1, high, mid)
               else SearchMax(accepts, low, mid - 1, best)
  {
    hide Quote;
  }

  lemma CanDrop(s: State, e: InboxEntry)
    requires e in s.inbox
    ensures Applicable(Drop(e.paymentId), s)
  {
  }

  lemma ProposedPends(intent: Intent, s: State)
    requires Applicable(Propose(intent), s)
    ensures Apply(Propose(intent), s).pending == Some(intent)
    ensures Applicable(Withdraw, Apply(Propose(intent), s))
  {
  }

  lemma CanFlush(w: World, ok: bool)
    requires w.phase == Resting
    ensures Enabled(w, FlushLocal(ok))
  {
  }
}
