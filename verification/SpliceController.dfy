/**
 * The splice controller: its fields, the storage behind them, and a ghost trace
 * that records every operation as steps of SpliceProtocol.
 */
module SpliceController {
  import opened Results
  import opened StableStore
  import opened SpliceProtocol
  import opened SpliceOperations
  import opened CoinSums
  import opened SpliceSelection
  import Funding = SpliceFunding

  ghost function Strip(v: Vault<Copy>): Vault<State>
  {
    Vault(v.remotely, v.memory.splice, v.version, if v.local.Some? then Some(v.local.value.splice) else None,
          if v.remote.Some? then Some(Remote(v.remote.value.version, v.remote.value.value.splice)) else None)
  }

  lemma StripStored(v: Vault<Copy>, next: Copy, luck: SaveLuck)
    ensures Strip(Stored(v, next, luck)) == Stored(Strip(v), next.splice, luck)
    ensures StoreWorks(Strip(v), luck) == StoreWorks(v, luck)
    ensures StoreWorks(v, luck) ==> Stored(v, next, luck).memory == next
  {
  }

  lemma NextSplice(c: Change, x: Copy, epoch: nat, brought: Outlay)
    requires Applicable(c, x.splice)
    ensures Next(c, x, epoch, brought).splice == Apply(c, x.splice)
  {
  }

  /** The record of a hand-over from this copy. */
  function Handed(x: Copy, tx: string, hash: Id, quote: Quote): Submission
  {
    Submission(x.epoch, tx, hash, quote, x.outlay)
  }

  class Controller {
    const remotely: bool
    ghost const reliable: bool
    const providerId: string
    const isMine: Ownership
    var state: State
    var version: nat
    var local: Option<State>
    var remote: Option<Remote<State>>
    var stopped: bool
    var reviewedQuote: Option<Quote>
    var submittedHash: Option<Id>
    var reserved: set<Outpoint>
    ghost var counted: seq<Funding.Coin>  // the coins from which the reviewed quote was made
    ghost var trace: seq<World>

    ghost function Now(): World
      requires trace != []
      reads this
    {
      trace[|trace| - 1]
    }

    ghost function Value(): Vault<State>
      reads this
    {
      Vault(remotely, state, version, local, remote)
    }

    ghost predicate Consistent()
      reads this
    {
      && trace != []
      && IsRun(trace, Config(remotely, reliable))
      && Strip(Now().vault) == Value()
      && Now().submitted == submittedHash
      && Now().reserved == reserved
      && (reviewedQuote.Some? ==> Funded(reviewedQuote.value, counted))
    }

    ghost predicate Valid()
      reads this
    {
      Consistent() && !Now().armed && reserved == Inputs(state)
    }

    /** The assumption about the local database under which `reliable` is promised. */
    ghost predicate Honest(luck: SaveLuck) { reliable ==> luck.localOk }

    constructor (remotely: bool, ghost reliable: bool, providerId: string, isMine: Ownership)
      ensures Valid() && !stopped && Value() == Vault(remotely, None, 0, None, None)
      ensures this.remotely == remotely && this.reliable == reliable
      ensures this.providerId == providerId && this.isMine == isMine
    {
      this.remotely, this.reliable, this.providerId, this.isMine := remotely, reliable, providerId, isMine;
      state, version, local, remote := None, 0, None, None;
      stopped, reviewedQuote, submittedHash, reserved := false, None, None, {};
      trace := [Start(Config(remotely, reliable))];
    }

    ghost method Account(e: Event)
      requires trace != [] && IsRun(trace, Config(remotely, reliable))
      requires Enabled(Now(), e, Config(remotely, reliable))
      requires Strip(After(Now(), e).vault) == Value()
      requires After(Now(), e).submitted == submittedHash && After(Now(), e).reserved == reserved
      requires reviewedQuote.Some? ==> Funded(reviewedQuote.value, counted)
      modifies `trace
      ensures Consistent() && |trace| == |old(trace)| + 1 && old(trace) <= trace
      ensures Now() == After(old(Now()), e)
    {
      var v := After(Now(), e);
      assert Step(Now(), v, Config(remotely, reliable));
      trace := trace + [v];
    }

    /** Read the saved state on a fresh page. */
    method Load()
      requires Consistent()
      modifies this
      ensures Valid() && old(trace) <= trace && Now().submissions == old(Now().submissions)
      ensures Value() == Loaded(old(Value()), None)
      ensures submittedHash == None && !stopped && reviewedQuote == None
    {
      hide IsRun, Enabled, After, Strip, Inputs;
      CrashReloads(Now());
      state, version, submittedHash, stopped, reviewedQuote := None, 0, None, false, None;
      if local.Some? {
        state := local.value;
      }
      if remotely {
        version := if remote.Some? then remote.value.version else 0;
        if remote.Some? {
          state := remote.value.value;
          local := Some(state);
        }
      }
      reserved := Inputs(state);
      assert Enabled(Now(), Crash, Config(remotely, reliable)) by { CanCrash(Now(), Config(remotely, reliable)); }
      Account(Crash);
    }

    /** The remote write, the state in memory and its reservations, and last the local database. */
    method Write(next: State, luck: SaveLuck) returns (done: bool)
      requires reserved == Inputs(state)
      modifies this`state, this`version, this`local, this`remote, this`reserved
      ensures Value() == Stored(old(Value()), next, luck) && done == StoreWorks(old(Value()), luck)
      ensures reserved == Inputs(state)
    {
      hide Inputs;
      if remotely {
        if luck.reply == Denied || version != (if remote.Some? then remote.value.version else 0) {
          return false;
        }
        remote := Some(Remote(version + 1, next));
        if luck.reply == AnswerLost {
          return false;
        }
        version := version + 1;
      }
      state := next;
      reserved := Inputs(next);
      if !luck.localOk {
        return false;
      }
      local := Some(next);
      done := true;
    }

    /** Save one change. */
    method SaveState(change: Change, luck: SaveLuck, ghost brought: Outlay) returns (done: bool)
      requires Consistent() && reserved == Inputs(state) && Honest(luck)
      requires Applicable(change, state) && Brings(change, state, brought)
      modifies this`state, this`version, this`local, this`remote, this`reserved, this`trace
      ensures Consistent() && old(trace) <= trace && Now().submissions == old(Now().submissions)
      ensures Value() == Stored(old(Value()), Apply(change, old(state)), luck)
      ensures done == StoreWorks(old(Value()), luck)
      ensures Now().armed == (done && change.AttemptConversion?)
      ensures done ==> state == Apply(change, old(state))
      ensures done ==> Now().vault.memory == Next(change, old(Now().vault.memory), old(Now().nextEpoch), brought)
      ensures reserved == Inputs(state)
    {
      ghost var w := Now();
      ghost var next := Next(change, w.vault.memory, w.nextEpoch, brought);
      NextSplice(change, w.vault.memory, w.nextEpoch, brought);
      StripStored(w.vault, next, luck);
      hide IsRun, Next, Applicable, Brings, Funded, Apply, Stored, StoreWorks, Inputs;
      done := Write(Apply(change, state), luck);
      Account(Save(change, luck, brought));
    }

    /** One save as the last thing an operation does. */
    method SaveLast(change: Change, luck: SaveLuck) returns (r: Result<bool, SpliceFault>)
      requires Valid() && Honest(luck) && Applicable(change, state)
      requires !change.AttemptConversion? && !change.Commit? && !change.Sign?
      modifies this`state, this`version, this`local, this`remote, this`reserved, this`trace
      ensures Valid() && old(trace) <= trace && Now().submissions == old(Now().submissions)
      ensures Ended(Value(), r) == SaveEnd(old(Value()), change, luck)
    {
      hide IsRun, Applicable, Apply, Stored, StoreWorks;
      var done := SaveState(change, luck, NOTHING);
      r := if done then Ok(true) else Err(StoreFailed);
    }

    /**
     * Look at the channel, choose coins for a funding quote and remember the quote as the one to review. `wallet` holds
     * the confirmed coins, each once, largest first.
     */
    method CreateQuote(requested: Option<int>, wallet: seq<Funding.Coin>, look: QuoteLook)
      returns (r: Result<Quote, SpliceFault>)
      requires Valid() && Funding.DistinctCoins(wallet)
      modifies this`reviewedQuote, this`counted
      ensures Valid()
      ensures reviewedQuote == if r.Ok? then Some(r.value) else old(reviewedQuote)
      ensures counted == if r.Ok? then wallet else old(counted)
      ensures var gate := QuoteGate(stopped, state, requested, look);
              var values, rate := Funding.CoinValues(wallet), QuoteRate(look);
              && (gate.Some? ==> r == Err(gate.value))
              && (gate.None? ==>
                    && (r.Ok? <==> CanFund(values, rate, requested) && look.saved)
                    && (CanFund(values, rate, requested) && !look.saved ==> r == Err(PersistFailed))
                    && (!CanFund(values, rate, requested) ==> r.Err? && r.error.NotFundable?))
              && (r.Ok? ==>
                    var review := r.value.review;
                    && Funded(r.value, wallet)
                    && (requested.Some? ==> review.amount == requested.value)
                    && (requested.None? ==> forall a | Fundable(values, rate, a) :: a <= review.amount)
                    && QuoteFault(look).None?
                    && r.value == Terms(providerId, look, review.amount, review.maxFee, review.inputs))
    {
      hide IsRun, Candidate, Funding.CoinValues, PrefixFee;
      if stopped {
        return Err(Stopped);
      }
      if IsPending(state) || !look.canStart {
        return Err(ReviewFresh);
      }
      if requested.Some? && requested.value < MIN_AMOUNT_SATS {
        return Err(NotFundable(AmountTooSmall));
      }
      if look.market.None? {
        return Err(NoFeeRate);
      }
      var fault := QuoteFault(look);
      if fault.Some? {
        return Err(fault.value);
      }
      var coins := Unreserved(wallet, reserved);
      AllUnreserved(wallet);
      assert coins == wallet;
      var choice := Select(Funding.CoinValues(coins), requested, QuoteRate(look));
      match choice {
        case Err(error) => r := Err(NotFundable(error));
        case Ok(s) =>
          var quote := Terms(providerId, look, s.amount, s.fee, coins[..s.count]);
          if !look.saved {
            return Err(PersistFailed);
          }
          reviewedQuote, counted := Some(quote), wallet;
          r := Ok(quote);
      }
    }

    /** The checks of a commit against the channel, the wallet and the block explorer. */
    method CheckCommit(quote: Quote, look: CommitLook) returns (fault: Option<SpliceFault>)
      ensures fault == LookFault(quote, providerId, look)
    {
      fault := ChannelFault(quote, providerId, look.channel);
      if fault.Some? {
        return;
      }
      var inputs := quote.review.inputs;
      if exists c | c in inputs :: c.outpoint !in look.unspent {
        return Some(FundsChanged);
      }
      var i := 0;
      while i < |inputs|
        invariant 0 <= i <= |inputs|
        invariant SpendFault(inputs[i..], look.outspend) == SpendFault(inputs, look.outspend)
      {
        assert inputs[i..][1..] == inputs[i + 1..];
        match look.outspend(inputs[i].outpoint) {
          case Unverified => return Some(CouldNotVerify);
          case SpentOrUnknown => return Some(FundsChanged);
          case Unspent =>
        }
        i := i + 1;
      }
      fault := if exists c | c in inputs :: !look.contributable(c.outpoint) then Some(CannotContribute) else None;
    }

    /** Start the reviewed splice: save it as prepared, ask LDK, and save the answer. */
    method CommitSplice(quote: Quote, f: CommitFate) returns (r: Result<bool, SpliceFault>)
      requires Valid() && Honest(f.prepare) && Honest(f.mark)
      modifies this`state, this`version, this`local, this`remote, this`reserved, this`trace
      ensures Valid() && old(trace) <= trace && Now().submissions == old(Now().submissions)
      ensures Ended(Value(), r)
           == if stopped then Ended(old(Value()), Err(Stopped)) else CommitEnd(old(Value()), reviewedQuote, providerId, quote, f)
    {
      hide IsRun, Stored, StoreWorks, LookFault;
      if stopped {
        return Err(Stopped);
      }
      if reviewedQuote != Some(quote) {
        return Err(ReviewFirst);
      }
      if quote.expiresAt < f.now || IsPending(state) || !f.canStart {
        return Err(ReviewFresh);
      }
      var fault := CheckCommit(quote, f.look);
      if fault.Some? {
        return Err(fault.value);
      }
      var prepared := SaveState(Commit(quote), f.prepare, Outlay(counted, 0));
      if !prepared {
        return Err(StoreFailed);
      }
      if !f.ldkOk {
        r := SaveLast(RefusedByLdk, f.mark);
        return if r.Ok? then Err(CouldNotStart) else r;
      }
      r := SaveLast(Negotiate, f.mark);
      if r.Ok? && !f.persistOk {
        r := Err(PersistFailed);
      }
    }

    /** Give up a splice that was never signed. */
    method Cancel(persistOk: bool, luck: SaveLuck) returns (r: Result<bool, SpliceFault>)
      requires Valid() && Honest(luck)
      modifies this`state, this`version, this`local, this`remote, this`reserved, this`trace
      ensures Valid() && old(trace) <= trace && Now().submissions == old(Now().submissions)
      ensures Ended(Value(), r)
           == if stopped then Ended(old(Value()), Err(Stopped)) else CancelEnd(old(Value()), persistOk, luck)
    {
      hide IsRun, Apply, Stored, StoreWorks;
      if stopped {
        return Err(Stopped);
      }
      if !IsPending(state) || state.value.signedTx.Some? {
        return Err(AlreadySigned);
      }
      if !persistOk {
        return Err(PersistFailed);
      }
      r := SaveLast(CancelUnsigned, luck);
    }

    /** Validate the negotiated transaction against the review, and only then let the wallet sign. */
    method ValidateAndSign(quote: Quote, f: SignFate) returns (signed: Option<string>)
      ensures signed == Signing(quote, isMine, f)
    {
      hide Funding.KeepsReview;
      if f.previous.None? {
        return None;
      }
      var verdict := Funding.ValidateSpliceFunding(f.tx, f.previous.value, quote.review, isMine);
      signed := if verdict.Ok? then f.signature else None;
    }

    /** Sign if that has not been done, save the signature, and only then hand it to LDK. */
    method HandleSign(hash: Id, f: SignFate) returns (r: Result<bool, SpliceFault>)
      requires Valid() && Honest(f.save) && IsPending(state)
      modifies this`state, this`version, this`local, this`remote, this`reserved, this`trace, this`submittedHash
      ensures Valid() && old(trace) <= trace
      ensures SignEnd(old(Value()), old(submittedHash), isMine, hash, f).ended == Ended(Value(), r)
      ensures SignEnd(old(Value()), old(submittedHash), isMine, hash, f).submitted == submittedHash
      ensures var handed := SignEnd(old(Value()), old(submittedHash), isMine, hash, f).handed;
              Now().submissions == old(Now().submissions)
                                   + if handed.Some? then [Handed(Now().vault.memory, handed.value, hash, old(state.value.quote))]
                                     else []
      ensures old(state.value.signedTx).None? && SignEnd(old(Value()), old(submittedHash), isMine, hash, f).handed.Some? ==>
                Now().vault.memory.outlay == Outlay(old(Now().vault.memory.outlay.counted), Loss(isMine, f))
    {
      InvNow();
      ghost var was := Now().vault.memory;
      SigningStaysWithin(state.value.quote, was.outlay.counted, isMine, f);
      hide IsRun, Stored, StoreWorks, CopyInv, Funded, Signing;
      if state.value.unsignedHash.Some? && state.value.unsignedHash != Some(hash) {
        return Err(TransactionChanged);
      }
      if state.value.signedTx.None? {
        var signed := ValidateAndSign(state.value.quote, f);
        if signed.None? {
          return Err(SigningFailed);
        }
        var saved := SaveState(Sign(signed.value, hash), f.save, Outlay([], Loss(isMine, f)));
        if !saved {
          return Err(StoreFailed);
        }
      }
      r := HandOver(hash, f);
    }

    /**
     * From quote to hand-over: when a splice is signed for the first time and handed to LDK, the wallet spends the coins of
     * the quote only, the first ones of those counted then; it loses between the amount and the amount plus the quoted
     * fee, and the coins counted still hold the reserve.
     */
    lemma HandedKeepsReserve(hash: Id, f: SignFate)
      requires Valid() && IsPending(state) && state.value.signedTx.None?
      ensures var review, coins := state.value.quote.review, Now().vault.memory.outlay.counted;
              var count := |review.inputs|;
              SignEnd(Value(), submittedHash, isMine, hash, f).handed.Some? ==>
                && f.previous.Some?
                && count <= |coins| && review.inputs == coins[..count]
                && Funding.WalletIn(f.tx, f.previous.value, isMine, |f.tx.inputs|)
                   == Prefix(Funding.CoinValues(coins), count)
                && review.amount <= Loss(isMine, f) <= review.amount + review.maxFee
                && Sum(Funding.CoinValues(coins)) - Loss(isMine, f) >= ANCHOR_RESERVE_SATS
    {
      InvNow();
      var quote, coins := state.value.quote, Now().vault.memory.outlay.counted;
      SigningStaysWithin(quote, coins, isMine, f);
      hide IsRun, Loss, Stored, StoreWorks, Funding.CoinValues;
    }

    /** Hand the saved transaction to LDK, once for each hash and page. */
    method HandOver(hash: Id, f: SignFate) returns (r: Result<bool, SpliceFault>)
      requires Valid() && IsPending(state) && state.value.signedTx.Some? && state.value.unsignedHash == Some(hash)
      modifies this`trace, this`submittedHash
      ensures Valid() && old(trace) <= trace
      ensures var h := Hand(Value(), old(submittedHash), hash, state.value.signedTx.value, f);
              && h.ended == Ended(Value(), r)
              && h.submitted == submittedHash
              && Now().vault == old(Now().vault)
              && Now().submissions == old(Now().submissions)
                                      + if h.handed.Some?
                                        then [Handed(Now().vault.memory, h.handed.value, hash, state.value.quote)] else []
    {
      InvNow();
      hide IsRun;
      if submittedHash != Some(hash) {
        if f.reply != Rejects {
          submittedHash := Some(hash);
        }
        Account(Submit(f.reply != Rejects));
        if f.reply == Rejects {
          return Err(NotAccepted);
        }
      }
      r := if f.persistOk then Ok(true) else Err(PersistFailed);
    }

    lemma InvNow()
      requires Consistent()
      ensures Now().vault.memory.splice == state
      ensures state.Some? ==> (state.value.signedTx.Some? <==> state.value.unsignedHash.Some?)
      ensures Backed(state, Now().vault.memory.outlay)
    {
      RunKeepsAlways(trace, Config(remotely, reliable), |trace| - 1);
    }

    /** A pending splice whose new funding is the provider's usable channel is complete. */
    method ReconcileReady(look: ReadyLook, luck: SaveLuck) returns (r: Result<bool, SpliceFault>)
      requires Valid() && Honest(luck)
      modifies this`state, this`version, this`local, this`remote, this`reserved, this`trace
      ensures Valid() && old(trace) <= trace && Now().submissions == old(Now().submissions)
      ensures Ended(Value(), r) == ReadyEnd(old(Value()), look, luck)
    {
      hide IsRun, Apply, Stored, StoreWorks;
      if !IsPending(state) || state.value.newFunding.None? {
        return Ok(false);
      }
      if !look.single {
        return Err(NoSingleChannel);
      }
      if look.userChannelId != state.value.quote.userChannelId || !look.usable
         || look.funding != state.value.newFunding.value {
        return Ok(false);
      }
      if !look.recordOk {
        return Err(PersistFailed);
      }
      if !look.rebindOk {
        return Err(RebindFailed);
      }
      r := SaveLast(Finish(look.newChannelId, look.funding), luck);
    }

    method Handle(e: SpliceEvent, f: SignFate, look: ReadyLook, luck: SaveLuck) returns (r: Result<bool, SpliceFault>)
      requires Valid() && Honest(f.save) && Honest(luck)
      modifies this`state, this`version, this`local, this`remote, this`reserved, this`trace, this`submittedHash
      ensures Valid() && old(trace) <= trace
      ensures stopped ==> r == Err(Stopped) && Value() == old(Value()) && trace == old(trace)
      ensures !stopped ==>
                && HandleEnd(old(Value()), old(submittedHash), isMine, e, f, look, luck).ended == Ended(Value(), r)
                && HandleEnd(old(Value()), old(submittedHash), isMine, e, f, look, luck).submitted == submittedHash
                && var handed := HandleEnd(old(Value()), old(submittedHash), isMine, e, f, look, luck).handed;
                   Now().submissions == old(Now().submissions)
                     + if handed.Some? && e.SignEvent?
                       then [Handed(Now().vault.memory, handed.value, e.hash, old(state.value.quote))] else []
    {
      hide IsRun, Apply, Stored, StoreWorks, SignEnd, ReadyEnd;
      if stopped {
        return Err(Stopped);
      }
      if !IsPending(state) {
        return IdleAnswer(state, e);
      }
      var q := state.value.quote;
      if e.userChannelId != q.userChannelId || e.providerId != q.providerId {
        return if e.SignEvent? then Err(OtherChannel) else Ok(false);
      }
      match e {
        case SignEvent(_, _, hash) => r := HandleSign(hash, f);
        case PendingEvent(_, _, outpoint) => r := SaveLast(MarkPending(outpoint), luck);
        case FailedEvent(_, _, inputs) =>
          if exists c | c in q.review.inputs :: c.outpoint !in inputs {
            return Err(NotReleased);
          }
          r := SaveLast(Release(inputs), luck);
        case ReadyEvent(_, _) => r := ReconcileReady(look, luck);
      }
    }

    /** Complete a ready splice, then allocate its satoshis to dollars once. */
    method Tick(look: ReadyLook, luck: SaveLuck, f: ConvertFate) returns (r: Result<bool, SpliceFault>)
      requires Valid() && Honest(luck) && Honest(f.announce) && Honest(f.done)
      modifies this`state, this`version, this`local, this`remote, this`reserved, this`trace
      ensures Valid() && old(trace) <= trace && Now().submissions == old(Now().submissions)
      ensures Ended(Value(), r)
           == if stopped then Ended(old(Value()), Err(Stopped)) else TickEnd(old(Value()), look, luck, f)
    {
      hide IsRun, Stored, StoreWorks, ReadyEnd, ConvertEnd, Inputs;
      if stopped {
        return Err(Stopped);
      }
      r := ReconcileReady(look, luck);
      if r.Err? || !ConversionDue(state) {
        return;
      }
      r := ConvertOnce(f);
    }

    /** Announce the conversion, ask for it, and save that it is done. */
    method ConvertOnce(f: ConvertFate) returns (r: Result<bool, SpliceFault>)
      requires Valid() && Honest(f.announce) && Honest(f.done) && ConversionDue(state)
      modifies this`state, this`version, this`local, this`remote, this`reserved, this`trace
      ensures Valid() && old(trace) <= trace && Now().submissions == old(Now().submissions)
      ensures Ended(Value(), r) == ConvertEnd(old(Value()), f)
    {
      hide IsRun, Stored, StoreWorks, Inputs;
      if !f.announces {
        return Err(AllocationFailed);
      }
      var announced := SaveState(AttemptConversion, f.announce, NOTHING);
      if !announced {
        return Err(StoreFailed);
      }
      Account(Convert);
      if !f.placed {
        return Err(AllocationFailed);
      }
      r := SaveLast(ConversionDone, f.done);
    }
  }

  lemma CrashReloads(w: World)
    ensures var v := After(w, Crash);
            && Strip(v.vault) == Loaded(Strip(w.vault), None)
            && v.submitted == None && !v.armed && v.submissions == w.submissions
            && v.reserved == Inputs(Loaded(Strip(w.vault), None).memory)
  {
  }

  lemma CanCrash(w: World, cfg: Config)
    ensures Enabled(w, Crash, cfg)
  {
  }
}
