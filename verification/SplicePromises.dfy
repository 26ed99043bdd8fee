/**
 * What the user is promised about a splice, as relations between the splice before and after an operation and the answers of
 * the surroundings, without the tests that the controller makes in between; and that the operations keep it.
 */
module SplicePromises {
  import opened Results
  import opened Arithmetic
  import opened StableStore
  import opened SpliceProtocol
  import opened SpliceOperations
  import opened CoinSums
  import opened SpliceSelection
  import Funding = SpliceFunding

  /** The splice is under way: its inputs are reserved, and no other can start. */
  predicate Open(s: State) { s.Some? && s.value.status in {Prepared, Negotiating, Signed, Awaiting} }

  lemma PendingIsOpen(s: State)
    ensures IsPending(s) <==> Open(s)
    ensures forall o :: o in Inputs(s) <==> Open(s) && exists c | c in s.value.quote.review.inputs :: c.outpoint == o
  {
  }

  // ----- saves -----

  /** The server, if there is one, takes the write at its present version, and its answer arrives. */
  predicate Taken(v: Vault<State>, luck: SaveLuck)
  {
    v.remotely ==> luck.reply == Accepted && v.version == if v.remote.Some? then v.remote.value.version else 0
  }

  /**
   * A save that the server takes changes memory; it is complete when the local database takes it too, and then a crash brings
   * the new state back. Any other save leaves memory alone.
   */
  lemma SaveKeepsPromises(v: Vault<State>, next: State, luck: SaveLuck)
    ensures var w := Stored(v, next, luck);
            && w.memory == (if Taken(v, luck) then next else v.memory)
            && (StoreWorks(v, luck) <==> Taken(v, luck) && luck.localOk)
            && (StoreWorks(v, luck) ==> OnDisk(w, None) == next && Loaded(w, None).memory == next && w.local == Some(next))
            && (Taken(v, luck) ==> forall later: SaveLuck | later.reply == Accepted :: Taken(w, later))
  {
  }

  /** A fresh page has the server's splice, or else the one in the local database, which then holds it in any case. */
  lemma LoadKeepsPromises(v: Vault<State>)
    ensures var w := Loaded(v, None);
            && w.memory == (if v.remotely && v.remote.Some? then v.remote.value.value
                            else if v.local.Some? then v.local.value else None)
            && w.version == (if v.remotely && v.remote.Some? then v.remote.value.version else 0)
            && w.local == (if v.remotely && v.remote.Some? then Some(w.memory) else v.local)
            && w.remote == v.remote
  {
  }

  // ----- the ready channel -----

  /**
   * The splice may complete: the provider's one channel is usable, is the quoted one, and has the new funding output that was
   * recorded for the splice; and both records of it succeed.
   */
  predicate Completes(s: State, look: ReadyLook)
  {
    && Open(s) && look.single && look.usable && look.userChannelId == s.value.quote.userChannelId
    && s.value.newFunding == Some(look.funding)
    && look.recordOk && look.rebindOk
  }

  /** The splice is complete on its new channel, and nothing else about it has changed. */
  predicate NowComplete(s: State, look: ReadyLook, t: State)
  {
    s.Some? && t == Some(s.value.(status := Complete, newChannelId := Some(look.newChannelId)))
  }

  /** A splice completes exactly when it may and its save is taken. */
  lemma ReadyKeepsPromises(v: Vault<State>, look: ReadyLook, luck: SaveLuck)
    ensures var e := ReadyEnd(v, look, luck);
            && (Completes(v.memory, look) && Taken(v, luck) ==> NowComplete(v.memory, look, e.vault.memory))
            && (!Completes(v.memory, look) ==> e.vault == v && e.result != Ok(true))
            && (!Taken(v, luck) ==> e.vault.memory == v.memory)
            && (e.result == Ok(true) <==> Completes(v.memory, look) && Taken(v, luck) && luck.localOk)
            && (e.result == Ok(true) ==> OnDisk(e.vault, None) == e.vault.memory)
            && (e.result == Ok(false) ==> e.vault == v)
  {
    PendingIsOpen(v.memory);
    if Completes(v.memory, look) {
      SaveKeepsPromises(v, Apply(Finish(look.newChannelId, look.funding), v.memory), luck);
    }
    hide Stored, StoreWorks, OnDisk, Loaded, Taken, IsPending, Open;
  }

  // ----- the conversion -----

  /** The splice is complete and has not been converted. */
  predicate Unconverted(s: State) { s.Some? && s.value.status == Complete && s.value.conversion == NotYet }

  /** Neither the announcement, nor the placing, nor one of the two saves meets a fault. */
  predicate Undisturbed(v: Vault<State>, f: ConvertFate)
  {
    && f.announces && f.placed && f.announce.localOk && f.done.localOk
    && Taken(v, f.announce) && (v.remotely ==> f.done.reply == Accepted)
  }

  /**
   * A conversion is announced before it is asked for: it is marked as attempted once the announcement is taken and as done once
   * it was placed as well, and by nothing else. When nothing fails it is done.
   */
  lemma ConvertKeepsPromises(v: Vault<State>, f: ConvertFate)
    requires Unconverted(v.memory)
    ensures var e := ConvertEnd(v, f);
            && e.vault.memory.Some?
            && e.vault.memory == Some(v.memory.value.(conversion := e.vault.memory.value.conversion))
            && (e.vault.memory.value.conversion != NotYet ==> f.announces && Taken(v, f.announce))
            && (e.vault.memory.value.conversion == Done ==> f.placed && f.announce.localOk)
            && (f.announces && Taken(v, f.announce) ==> e.vault.memory.value.conversion != NotYet)
            && (e.result.Ok? ==> e.result == Ok(true) && e.vault.memory.value.conversion == Done)
            && (Undisturbed(v, f) ==> e.result == Ok(true))
  {
    if f.announces {
      var announced := Apply(AttemptConversion, v.memory);
      SaveKeepsPromises(v, announced, f.announce);
      if StoreWorks(v, f.announce) {
        SaveKeepsPromises(Stored(v, announced, f.announce), Apply(ConversionDone, announced), f.done);
      }
    }
    hide Stored, StoreWorks, OnDisk, Loaded;
  }

  /** The splice after a tick that nothing disturbs: complete if it may be, and converted if it is complete. */
  lemma TickKeepsPromises(v: Vault<State>, look: ReadyLook, luck: SaveLuck, f: ConvertFate)
    ensures var e := TickEnd(v, look, luck, f);
            && (!Completes(v.memory, look) && !Unconverted(v.memory) ==> e.vault == v)
            && (Open(v.memory) && !Completes(v.memory, look) ==> e.vault == v)
            && (Completes(v.memory, look) && Taken(v, luck) ==>
                  && e.vault.memory.Some? && e.vault.memory.value.status == Complete
                  && e.vault.memory.value.newChannelId == Some(look.newChannelId)
                  && (v.memory.value.conversion == NotYet && luck.localOk ==>
                        var ready := Some(v.memory.value.(status := Complete, newChannelId := Some(look.newChannelId)));
                        e == ConvertEnd(Stored(v, ready, luck), f)))
            && (Unconverted(v.memory) ==> e == ConvertEnd(v, f))
  {
    PendingIsOpen(v.memory);
    ReadyKeepsPromises(v, look, luck);
    if Completes(v.memory, look) && Taken(v, luck) {
      var ready := Stored(v, Apply(Finish(look.newChannelId, look.funding), v.memory), luck);
      SaveKeepsPromises(v, Apply(Finish(look.newChannelId, look.funding), v.memory), luck);
      if ConversionDue(ready.memory) {
        ConvertKeepsPromises(ready, f);
      }
    }
    hide Stored, StoreWorks, OnDisk, Loaded, ConvertEnd, Taken;
  }

  // ----- signing -----

  /** A signing request for a splice whose signed transaction belongs to another unsigned one. */
  predicate Conflicts(s: State, hash: Id) { s.Some? && s.value.unsignedHash.Some? && s.value.unsignedHash != Some(hash) }

  /** The negotiated transaction keeps the review, so the wallet signs it. */
  ghost predicate Signable(s: State, isMine: Ownership, f: SignFate)
  {
    && s.Some? && f.previous.Some? && f.signature.Some?
    && Funding.KeepsReview(f.tx, f.previous.value, s.value.quote.review, isMine)
  }

  /** LDK is handed the transaction unless this page has handed it over before, and is then remembered unless it refuses. */
  predicate HandedOver(e: SignEnded, submitted: Option<Id>, hash: Id, tx: string, reply: LdkReply)
  {
    && e.handed == (if submitted == Some(hash) then None else Some(tx))
    && e.submitted == (if reply == Rejects then submitted else Some(hash))
  }

  /**
   * A signing request of the pending splice: a changed transaction is refused; a signed one is handed over again, once for each
   * page; a first signature is made exactly when the transaction keeps the review, is saved with its hash, and is handed
   * over exactly when that save is complete.
   */
  lemma SignKeepsPromises(v: Vault<State>, submitted: Option<Id>, isMine: Ownership, hash: Id, f: SignFate)
    requires Open(v.memory) && (v.memory.value.signedTx.Some? <==> v.memory.value.unsignedHash.Some?)
    ensures IsPending(v.memory)
    ensures var e, s := SignEnd(v, submitted, isMine, hash, f), v.memory.value;
            var signed := Some(s.(status := Signed, signedTx := f.signature, unsignedHash := Some(hash)));
            if Conflicts(v.memory, hash) then
              e.ended == Ended(v, Err(TransactionChanged)) && e.handed.None? && e.submitted == submitted
            else if s.signedTx.Some? then
              e.ended.vault == v && HandedOver(e, submitted, hash, s.signedTx.value, f.reply)
            else if !Signable(v.memory, isMine, f) then
              e.ended == Ended(v, Err(SigningFailed)) && e.handed.None? && e.submitted == submitted
            else
              && e.ended.vault.memory == (if Taken(v, f.save) then signed else v.memory)
              && (if Taken(v, f.save) && f.save.localOk then
                    && HandedOver(e, submitted, hash, f.signature.value, f.reply)
                    && OnDisk(e.ended.vault, None) == signed
                  else e.handed.None? && e.submitted == submitted && e.ended.result.Err?)
    ensures var e := SignEnd(v, submitted, isMine, hash, f);
            e.ended.result == Ok(true) <==>
              && !Conflicts(v.memory, hash)
              && (v.memory.value.signedTx.None? ==> Signable(v.memory, isMine, f) && Taken(v, f.save) && f.save.localOk)
              && (submitted == Some(hash) || f.reply != Rejects) && f.persistOk
  {
    PendingIsOpen(v.memory);
    var s := v.memory.value;
    if !Conflicts(v.memory, hash) && s.signedTx.None? && Signable(v.memory, isMine, f) {
      SaveKeepsPromises(v, Apply(Sign(f.signature.value, hash), v.memory), f.save);
    }
    hide Stored, StoreWorks, OnDisk, Loaded, Taken, Funding.KeepsReview;
  }

  // ----- LDK's events -----

  /** The event is about the channel of the splice that is under way. */
  predicate Ours(s: State, e: SpliceEvent)
  {
    Open(s) && e.userChannelId == s.value.quote.userChannelId && e.providerId == s.value.quote.providerId
  }

  /** A signing request that may be passed over: it repeats one of a completed splice, or of one given up unsigned. */
  predicate PassedOver(s: State, e: SpliceEvent)
  {
    && e.SignEvent? && s.Some?
    && (|| (s.value.status == Complete && s.value.unsignedHash == Some(e.hash))
        || (s.value.status == Failed && s.value.signedTx.None?
            && e.providerId == s.value.quote.providerId && e.userChannelId == s.value.quote.userChannelId))
  }

  /** What one save does: memory has the new splice if it is taken, and the operation says so if it is complete. */
  predicate SavedAs(e: SignEnded, v: Vault<State>, submitted: Option<Id>, next: State, luck: SaveLuck)
  {
    && e.handed.None? && e.submitted == submitted
    && e.ended.vault.memory == (if Taken(v, luck) then next else v.memory)
    && (e.ended.result == Ok(true) <==> Taken(v, luck) && luck.localOk)
  }

  /**
   * What an event does. One that is not ours changes nothing, and is an error only if it asks for a signature that cannot be
   * passed over. A pending event records the new funding output, a failure frees the inputs exactly when it names
   * them all, a ready channel completes the splice if it may, and a request is signed as promised.
   */
  lemma HandleKeepsPromises(v: Vault<State>, submitted: Option<Id>, isMine: Ownership, e: SpliceEvent, f: SignFate,
                            look: ReadyLook, luck: SaveLuck)
    ensures var h := HandleEnd(v, submitted, isMine, e, f, look, luck);
            if !Ours(v.memory, e) then
              && h.ended.vault == v && h.handed.None? && h.submitted == submitted
              && (h.ended.result.Err? <==> e.SignEvent? && !PassedOver(v.memory, e))
            else
              var s := v.memory.value;
              match e
              case SignEvent(_, _, hash) => IsPending(v.memory) && h == SignEnd(v, submitted, isMine, hash, f)
              case PendingEvent(_, _, outpoint) =>
                SavedAs(h, v, submitted, Some(s.(status := Awaiting, newFunding := Some(outpoint))), luck)
              case FailedEvent(_, _, inputs) =>
                if forall c | c in s.quote.review.inputs :: c.outpoint in inputs then
                  SavedAs(h, v, submitted, Some(s.(status := Failed)), luck)
                else h == SignEnded(Ended(v, Err(NotReleased)), submitted, None)
              case ReadyEvent(_, _) => h == SignEnded(ReadyEnd(v, look, luck), submitted, None)
  {
    PendingIsOpen(v.memory);
    if Ours(v.memory, e) {
      match e {
        case PendingEvent(_, _, outpoint) => SaveKeepsPromises(v, Apply(MarkPending(outpoint), v.memory), luck);
        case FailedEvent(_, _, inputs) =>
          if Applicable(Release(inputs), v.memory) {
            SaveKeepsPromises(v, Apply(Release(inputs), v.memory), luck);
          }
        case _ =>
      }
    }
    hide Stored, StoreWorks, OnDisk, Loaded, Taken, SignEnd, ReadyEnd;
  }

  // ----- giving up -----

  /** Only an unsigned splice can be given up, and giving it up changes nothing but its status. */
  lemma CancelKeepsPromises(v: Vault<State>, persistOk: bool, luck: SaveLuck)
    ensures var e, may := CancelEnd(v, persistOk, luck), Open(v.memory) && v.memory.value.signedTx.None? && persistOk;
            && (!may ==> e.vault == v && e.result.Err?)
            && (may ==> e.vault.memory == if Taken(v, luck) then Some(v.memory.value.(status := Failed)) else v.memory)
            && (e.result == Ok(true) <==> may && Taken(v, luck) && luck.localOk)
  {
    PendingIsOpen(v.memory);
    if Open(v.memory) && v.memory.value.signedTx.None? {
      SaveKeepsPromises(v, Apply(CancelUnsigned, v.memory), luck);
    }
    hide Stored, StoreWorks, OnDisk, Loaded, Taken;
  }

  // ----- committing a quote -----

  /** The provider's one channel is still the one of the quote, unchanged and usable. */
  predicate Unchanged(quote: Quote, providerId: string, channel: Option<ChannelView>)
  {
    && channel.Some? && channel.value.usable && quote.providerId == providerId
    && channel.value.channelId == quote.channelId && channel.value.userChannelId == quote.userChannelId
    && channel.value.value == quote.review.channelValue && channel.value.funding == Some(quote.review.fundingOutpoint)
  }

  /** Wallet and explorer still call the coin unspent, and it can be contributed. */
  predicate StillSpendable(coin: Funding.Coin, look: CommitLook)
  {
    coin.outpoint in look.unspent && look.outspend(coin.outpoint) == Unspent && look.contributable(coin.outpoint)
  }

  /** A commit goes ahead: the quote is the reviewed one and fresh, and everything is as it was when it was made. */
  ghost predicate Starts(s: State, reviewed: Option<Quote>, providerId: string, quote: Quote, f: CommitFate)
  {
    && reviewed == Some(quote) && f.now <= quote.expiresAt && !Open(s) && f.canStart
    && Unchanged(quote, providerId, f.look.channel)
    && forall c | c in quote.review.inputs :: StillSpendable(c, f.look)
  }

  lemma LookKeepsPromises(quote: Quote, providerId: string, look: CommitLook)
    ensures LookFault(quote, providerId, look).None?
            <==> Unchanged(quote, providerId, look.channel)
                 && forall c | c in quote.review.inputs :: StillSpendable(c, look)
  {
    CleanLook(quote.review.inputs, look.outspend);
    hide SpendFault;
  }

  /**
   * A commit that does not go ahead changes nothing. One that does saves the splice as prepared first, and what LDK answers
   * second; it succeeds exactly when both saves are complete and LDK took the request.
   */
  lemma CommitKeepsPromises(v: Vault<State>, reviewed: Option<Quote>, providerId: string, quote: Quote, f: CommitFate)
    ensures var e := CommitEnd(v, reviewed, providerId, quote, f);
            var prepared := Splice(quote, Prepared, None, None, None, None, NotYet);
            var first := Stored(v, Some(prepared), f.prepare);
            if !Starts(v.memory, reviewed, providerId, quote, f) then e.vault == v && e.result.Err?
            else if !Taken(v, f.prepare) || !f.prepare.localOk then e == Ended(first, Err(StoreFailed))
            else
              && e.vault.memory == Some(if !Taken(first, f.mark) then prepared
                                        else prepared.(status := if f.ldkOk then Negotiating else Failed))
              && (e.result == Ok(true) <==> Taken(first, f.mark) && f.mark.localOk && f.ldkOk && f.persistOk)
              && (e.result.Ok? ==> e.result == Ok(true))
  {
    PendingIsOpen(v.memory);
    LookKeepsPromises(quote, providerId, f.look);
    hide LookFault, Unchanged, StillSpendable;
    if Starts(v.memory, reviewed, providerId, quote, f) {
      var prepared := Apply(Commit(quote), v.memory);
      var first := Stored(v, prepared, f.prepare);
      SaveKeepsPromises(v, prepared, f.prepare);
      SaveKeepsPromises(first, Apply(if f.ldkOk then Negotiate else RefusedByLdk, prepared), f.mark);
    }
    hide Stored, StoreWorks, OnDisk, Loaded, Taken;
  }

  // ----- quoting -----

  /** Nothing stands in the way of a quote but perhaps the coins. */
  predicate CanQuote(stopped: bool, s: State, requested: Option<int>, look: QuoteLook)
  {
    && !stopped && !Open(s) && look.canStart && look.market.Some?
    && (requested.Some? ==> requested.value >= 1_000)
    && look.channel.Some? && look.channel.value.usable && look.ready && !look.paying && look.splicing
    && look.channel.value.funding.Some? && look.fundingScript.Some?
  }

  /** A quote has the terms of the channel and the market of its look, and lives for two minutes. */
  ghost predicate TermsOf(quote: Quote, providerId: string, look: QuoteLook)
  {
    && look.channel.Some? && look.market.Some?
    && var c := look.channel.value;
    && quote.channelId == c.channelId && quote.userChannelId == c.userChannelId && quote.providerId == providerId
    && Some(quote.review.fundingOutpoint) == c.funding && quote.review.channelValue == c.value
    && Some(quote.review.fundingScript) == look.fundingScript && quote.review.changeScript == look.changeScript
    && quote.id == look.id && quote.expiresAt == look.now + 120_000
    && quote.feeRate == if look.market.value > 2 then look.market.value else 2
  }

  lemma QuoteKeepsPromises(stopped: bool, s: State, requested: Option<int>, look: QuoteLook, providerId: string, amount: int,
                           fee: int, inputs: seq<Funding.Coin>)
    ensures QuoteGate(stopped, s, requested, look).None? <==> CanQuote(stopped, s, requested, look)
    ensures CanQuote(stopped, s, requested, look) ==>
              && QuoteFault(look).None?
              && var q := Terms(providerId, look, amount, fee, inputs);
              TermsOf(q, providerId, look) && q.review.amount == amount && q.review.maxFee == fee && q.review.inputs == inputs
  {
    PendingIsOpen(s);
  }

  /**
   * What a funded quote costs: 220 vbytes and 69 for each input at its rate, at most 50,000 sats, for the largest coins, at
   * most 100 of them, which hold amount and fee; and the coins counted keep 10,000 sats.
   */
  lemma FundedQuoteCosts(quote: Quote, counted: seq<Funding.Coin>)
    requires Funded(quote, counted)
    ensures var n, review := |quote.review.inputs|, quote.review;
            && 1 <= n <= |counted| && n <= 100 && review.inputs == counted[..n]
            && review.maxFee == quote.feeRate * (220 + 69 * n) <= 50_000
            && review.amount + review.maxFee <= Prefix(Funding.CoinValues(counted), n)
            && review.amount + review.maxFee + 10_000 <= Sum(Funding.CoinValues(counted))
  {
  }
}
