/**
 * The operations of the splice controller as functions of what is stored and of how the surroundings answer:
 * the refusals of a quote, a commit, a signing request, and what LDK's events lead to.
 */
module SpliceOperations {
  import opened Results
  import opened Arithmetic
  import opened StableStore
  import opened SpliceProtocol
  import opened CoinSums
  import opened SpliceSelection
  import Funding = SpliceFunding

  datatype SpliceFault =
    | NotFundable(reason: SpliceError)
    | Stopped
    | ReviewFirst
    | ReviewFresh
    | NoFeeRate
    | NoSingleChannel
    | NotConnected
    | PaymentsPending
    | NoSplicing
    | NoFundingDetails
    | ChannelChanged
    | FundsChanged
    | CouldNotVerify
    | CannotContribute
    | StoreFailed
    | CouldNotStart
    | AlreadySigned
    | NoApprovedSplice
    | OtherChannel
    | TransactionChanged
    | SigningFailed
    | NotAccepted
    | NotReleased
    | PersistFailed
    | RebindFailed
    | AllocationFailed

  type State = Option<Splice>

  /** What an operation leaves in memory and on disk, and what it returns. */
  datatype Ended = Ended(vault: Vault<State>, result: Result<bool, SpliceFault>)

  /** One save at the end of an operation. */
  function SaveEnd(v: Vault<State>, c: Change, luck: SaveLuck): Ended
    requires Applicable(c, v.memory)
  {
    Ended(Stored(v, Apply(c, v.memory), luck), if StoreWorks(v, luck) then Ok(true) else Err(StoreFailed))
  }

  /** The one channel with the provider, as LDK lists it. */
  datatype ChannelView = ChannelView(channelId: Id, userChannelId: string, value: int, funding: Option<Outpoint>,
                                     usable: bool)

  // ----- quoting -----

  const QUOTE_MILLIS := 120_000

  /**
   * What a quote looks at: the fee market rounded up, the provider's channel, whether it is ready and has payments under
   * way, whether the peer supports splicing, the script of the channel's funding output, fresh values for the quote, and
   * whether the wallet's new address could be saved.
   */
  datatype QuoteLook = QuoteLook(canStart: bool, market: Option<int>, channel: Option<ChannelView>, ready: bool, paying: bool,
                                 splicing: bool, fundingScript: Option<Funding.Script>,
                                 id: Id, changeScript: Funding.Script, now: int, saved: bool)

  /** Why the channel takes no splice. */
  function QuoteFault(look: QuoteLook): Option<SpliceFault>
  {
    if look.channel.None? then Some(NoSingleChannel)
    else if !look.channel.value.usable || !look.ready then Some(NotConnected)
    else if look.paying then Some(PaymentsPending)
    else if !look.splicing then Some(NoSplicing)
    else if look.channel.value.funding.None? || look.fundingScript.None? then Some(NoFundingDetails)
    else None
  }

  /** Every refusal that comes before the coins are counted. */
  function QuoteGate(stopped: bool, s: State, requested: Option<int>, look: QuoteLook): Option<SpliceFault>
  {
    if stopped then Some(Stopped)
    else if IsPending(s) || !look.canStart then Some(ReviewFresh)
    else if requested.Some? && requested.value < MIN_AMOUNT_SATS then Some(NotFundable(AmountTooSmall))
    else if look.market.None? then Some(NoFeeRate)
    else QuoteFault(look)
  }

  function QuoteRate(look: QuoteLook): (rate: int)
    ensures rate >= MIN_FEE_RATE_SAT_VB
  {
    Max(MIN_FEE_RATE_SAT_VB, if look.market.Some? then look.market.value else MIN_FEE_RATE_SAT_VB)
  }

  /** The terms of the channel at the time of the look, for this amount, fee and coins. */
  function Terms(providerId: string, look: QuoteLook, amount: int, fee: int, inputs: seq<Funding.Coin>): Quote
    requires QuoteFault(look).None?
  {
    var channel := look.channel.value;
    Quote(look.id, channel.channelId, channel.userChannelId, providerId,
          Funding.Review(amount, fee, channel.funding.value, channel.value, look.fundingScript.value, look.changeScript, inputs),
          QuoteRate(look), look.now + QUOTE_MILLIS)
  }

  /** Whether the wallet's coins fund what is requested, or anything at all. */
  ghost predicate CanFund(values: seq<int>, feeRate: int, requested: Option<int>)
  {
    if requested.Some? then Fundable(values, feeRate, requested.value)
    else exists a :: a >= MIN_AMOUNT_SATS && Fundable(values, feeRate, a)
  }

  // ----- commit -----

  /** What the block explorer says of a coin. */
  datatype Spend = Unverified | SpentOrUnknown | Unspent

  /** What a commit looks at before it saves anything. */
  datatype CommitLook = CommitLook(channel: Option<ChannelView>, unspent: set<Outpoint>, outspend: Outpoint -> Spend,
                                   contributable: Outpoint -> bool)

  /** The channel must still be the quoted one, at the quoted value and funding output. */
  function ChannelFault(quote: Quote, providerId: string, view: Option<ChannelView>): Option<SpliceFault>
  {
    if view.None? then Some(NoSingleChannel)
    else if view.value.funding != Some(quote.review.fundingOutpoint)
            || view.value.channelId != quote.channelId || quote.providerId != providerId
            || view.value.userChannelId != quote.userChannelId || view.value.value != quote.review.channelValue
            || !view.value.usable then Some(ChannelChanged)
    else None
  }

  /** The first coin that the explorer cannot vouch for. */
  function SpendFault(inputs: seq<Funding.Coin>, outspend: Outpoint -> Spend): Option<SpliceFault>
  {
    if inputs == [] then None
    else match outspend(inputs[0].outpoint)
      case Unverified => Some(CouldNotVerify)
      case SpentOrUnknown => Some(FundsChanged)
      case Unspent => SpendFault(inputs[1..], outspend)
  }

  function LookFault(quote: Quote, providerId: string, look: CommitLook): Option<SpliceFault>
  {
    var inputs := quote.review.inputs;
    if ChannelFault(quote, providerId, look.channel).Some? then ChannelFault(quote, providerId, look.channel)
    else if exists c | c in inputs :: c.outpoint !in look.unspent then Some(FundsChanged)
    else if SpendFault(inputs, look.outspend).Some? then SpendFault(inputs, look.outspend)
    else if exists c | c in inputs :: !look.contributable(c.outpoint) then Some(CannotContribute)
    else None
  }

  /** A commit that goes ahead found the quoted channel, and every quoted coin unspent in wallet and explorer. */
  lemma {:induction false} CleanLook(inputs: seq<Funding.Coin>, outspend: Outpoint -> Spend)
    ensures SpendFault(inputs, outspend).None? <==> forall c | c in inputs :: outspend(c.outpoint) == Unspent
  {
    if inputs != [] {
      CleanLook(inputs[1..], outspend);
      assert inputs == [inputs[0]] + inputs[1..];
    }
  }

  /** The clock, the wallet's readiness, what the checks see, how the saves go, and whether LDK takes the request. */
  datatype CommitFate = CommitFate(now: int, canStart: bool, look: CommitLook, prepare: SaveLuck, ldkOk: bool,
                                   mark: SaveLuck, persistOk: bool)

  function CommitEnd(v: Vault<State>, reviewed: Option<Quote>, providerId: string, quote: Quote, f: CommitFate): Ended
  {
    if reviewed != Some(quote) then Ended(v, Err(ReviewFirst))
    else if quote.expiresAt < f.now || IsPending(v.memory) || !f.canStart then Ended(v, Err(ReviewFresh))
    else if LookFault(quote, providerId, f.look).Some? then Ended(v, Err(LookFault(quote, providerId, f.look).value))
    else
      var prepared := Stored(v, Apply(Commit(quote), v.memory), f.prepare);
      if !StoreWorks(v, f.prepare) then Ended(prepared, Err(StoreFailed))
      else
        var marked := SaveEnd(prepared, if f.ldkOk then Negotiate else RefusedByLdk, f.mark);
        if marked.result.Err? then marked
        else Ended(marked.vault, if !f.ldkOk then Err(CouldNotStart) else if f.persistOk then Ok(true) else Err(PersistFailed))
  }

  /** Only a splice that was never signed is given up. */
  function CancelEnd(v: Vault<State>, persistOk: bool, luck: SaveLuck): Ended
  {
    if !IsPending(v.memory) || v.memory.value.signedTx.Some? then Ended(v, Err(AlreadySigned))
    else if !persistOk then Ended(v, Err(PersistFailed))
    else SaveEnd(v, CancelUnsigned, luck)
  }

  // ----- signing -----

  datatype LdkReply = Takes | HandledBefore | Rejects

  /**
   * The negotiated transaction, the previous transactions of its inputs unless one could not be fetched, the
   * wallet's signature over it, how the save goes, and how LDK answers.
   */
  datatype SignFate = SignFate(tx: Funding.Tx, previous: Option<seq<Funding.PrevTx>>, signature: Option<string>,
                               save: SaveLuck, reply: LdkReply, persistOk: bool)

  type Ownership = Funding.Script -> bool

  /** The wallet signs only what keeps the review. */
  ghost function Signing(quote: Quote, isMine: Ownership, f: SignFate): Option<string>
  {
    if f.previous.Some? && Funding.KeepsReview(f.tx, f.previous.value, quote.review, isMine) then f.signature else None
  }

  /** What the negotiated transaction takes out of the wallet. */
  function Loss(isMine: Ownership, f: SignFate): int
  {
    if f.previous.None? then 0
    else Funding.WalletIn(f.tx, f.previous.value, isMine, |f.tx.inputs|) - Funding.WalletOut(f.tx, isMine, |f.tx.outputs|)
  }

  /** A signature is of a transaction that spends the quoted coins and stays within the review. */
  lemma SigningStaysWithin(quote: Quote, counted: seq<Funding.Coin>, isMine: Ownership, f: SignFate)
    requires Funded(quote, counted)
    ensures Signing(quote, isMine, f).Some? ==>
              && WithinReview(quote.review, Loss(isMine, f))
              && Funding.WalletIn(f.tx, f.previous.value, isMine, |f.tx.inputs|)
                 == Prefix(Funding.CoinValues(counted), |quote.review.inputs|)
  {
    hide Funding.KeepsReview, Funding.QuotedFrom, Funding.WalletIn, Funding.WalletOut, Funding.CoinValues;
    var review := quote.review;
    if Signing(quote, isMine, f).Some? {
      Funding.QuotedSpliceKeepsReserve(f.tx, f.previous.value, review, isMine, counted, quote.feeRate,
                                       Selection(|review.inputs|, review.amount, review.maxFee));
    }
  }

  /** As Ended, with the page's submitted hash and the transaction that this call handed to LDK, if any. */
  datatype SignEnded = SignEnded(ended: Ended, submitted: Option<Id>, handed: Option<string>)

  function Hand(v: Vault<State>, submitted: Option<Id>, hash: Id, tx: string, f: SignFate): SignEnded
  {
    var persisted := if f.persistOk then Ok(true) else Err(PersistFailed);
    if submitted == Some(hash) then SignEnded(Ended(v, persisted), submitted, None)
    else if f.reply == Rejects then SignEnded(Ended(v, Err(NotAccepted)), submitted, Some(tx))
    else SignEnded(Ended(v, persisted), Some(hash), Some(tx))
  }

  ghost function SignEnd(v: Vault<State>, submitted: Option<Id>, isMine: Ownership, hash: Id, f: SignFate): SignEnded
    requires IsPending(v.memory)
  {
    var s := v.memory.value;
    if s.unsignedHash.Some? && s.unsignedHash != Some(hash) then
      SignEnded(Ended(v, Err(TransactionChanged)), submitted, None)
    else if s.signedTx.Some? then Hand(v, submitted, hash, s.signedTx.value, f)
    else
      var signed := Signing(s.quote, isMine, f);
      if signed.None? then SignEnded(Ended(v, Err(SigningFailed)), submitted, None)
      else
        var saved := SaveEnd(v, Sign(signed.value, hash), f.save);
        if saved.result.Err? then SignEnded(saved, submitted, None)
        else Hand(saved.vault, submitted, hash, signed.value, f)
  }

  /**
   * A signing request hands LDK at most the transaction that memory holds as signed for that very hash,
   * and a first signature only after its save has reached the disk.
   */
  lemma HandedIsSaved(v: Vault<State>, submitted: Option<Id>, isMine: Ownership, hash: Id, f: SignFate)
    requires IsPending(v.memory) && (v.memory.value.signedTx.Some? <==> v.memory.value.unsignedHash.Some?)
    ensures var r := SignEnd(v, submitted, isMine, hash, f);
            r.handed.Some? ==>
              && submitted != Some(hash)
              && IsPending(r.ended.vault.memory)
              && r.ended.vault.memory.value.signedTx == r.handed
              && r.ended.vault.memory.value.unsignedHash == Some(hash)
              && (v.memory.value.signedTx.Some? ==> r.ended.vault == v)
              && (v.memory.value.signedTx.None? ==> OnDisk(r.ended.vault, None) == r.ended.vault.memory)
  {
  }

  // ----- the ready channel, and the conversion -----

  /**
   * Whether the provider has exactly one channel, that channel as the controller sees it, and whether the two records it
   * makes succeed.
   */
  datatype ReadyLook = ReadyLook(single: bool, userChannelId: string, usable: bool, funding: Outpoint, newChannelId: Id,
                                 recordOk: bool, rebindOk: bool)

  /** A pending splice knows its new funding output and waits for the channel on it. */
  predicate Awaited(s: State) { IsPending(s) && s.value.newFunding.Some? }

  predicate Locked(s: State, look: ReadyLook)
    requires Awaited(s)
  {
    && s.value.newFunding == Some(look.funding)
    && look.userChannelId == s.value.quote.userChannelId && look.usable
  }

  function ReadyEnd(v: Vault<State>, look: ReadyLook, luck: SaveLuck): Ended
  {
    if !Awaited(v.memory) then Ended(v, Ok(false))
    else if !look.single then Ended(v, Err(NoSingleChannel))
    else if !Locked(v.memory, look) then Ended(v, Ok(false))
    else if !look.recordOk then Ended(v, Err(PersistFailed))
    else if !look.rebindOk then Ended(v, Err(RebindFailed))
    else SaveEnd(v, Finish(look.newChannelId, look.funding), luck)
  }

  /** How the allocation goes: it may end before it is announced, and after. */
  datatype ConvertFate = ConvertFate(announces: bool, announce: SaveLuck, placed: bool, done: SaveLuck)

  predicate ConversionDue(s: State) { s.Some? && s.value.status == Complete && s.value.conversion == NotYet }

  function ConvertEnd(v: Vault<State>, f: ConvertFate): Ended
    requires ConversionDue(v.memory)
  {
    if !f.announces then Ended(v, Err(AllocationFailed))
    else
      var announced := SaveEnd(v, AttemptConversion, f.announce);
      if announced.result.Err? then announced
      else if !f.placed then Ended(announced.vault, Err(AllocationFailed))
      else SaveEnd(announced.vault, ConversionDone, f.done)
  }

  /** A tick completes a ready splice and then converts it, if that is due. */
  function TickEnd(v: Vault<State>, look: ReadyLook, luck: SaveLuck, f: ConvertFate): Ended
  {
    var ready := ReadyEnd(v, look, luck);
    if ready.result.Err? || !ConversionDue(ready.vault.memory) then ready else ConvertEnd(ready.vault, f)
  }

  // ----- LDK's events -----

  datatype SpliceEvent =
    | SignEvent(userChannelId: string, providerId: string, hash: Id)
    | PendingEvent(userChannelId: string, providerId: string, outpoint: Outpoint)
    | FailedEvent(userChannelId: string, providerId: string, inputs: seq<Outpoint>)
    | ReadyEvent(userChannelId: string, providerId: string)

  /** An event that finds no pending splice: a request to sign is refused unless it repeats a completed one. */
  function IdleAnswer(s: State, e: SpliceEvent): Result<bool, SpliceFault>
  {
    if s.Some? && s.value.status == Failed && s.value.signedTx.None?
       && e.providerId == s.value.quote.providerId && e.userChannelId == s.value.quote.userChannelId then Ok(false)
    else if e.SignEvent? && !(s.Some? && s.value.status == Complete && s.value.unsignedHash == Some(e.hash))
      then Err(NoApprovedSplice)
    else Ok(false)
  }

  ghost function HandleEnd(v: Vault<State>, submitted: Option<Id>, isMine: Ownership, e: SpliceEvent, f: SignFate,
                           look: ReadyLook, luck: SaveLuck): SignEnded
  {
    var s := v.memory;
    if !IsPending(s) then SignEnded(Ended(v, IdleAnswer(s, e)), submitted, None)
    else if e.userChannelId != s.value.quote.userChannelId || e.providerId != s.value.quote.providerId then
      SignEnded(Ended(v, if e.SignEvent? then Err(OtherChannel) else Ok(false)), submitted, None)
    else match e
      case SignEvent(_, _, hash) => SignEnd(v, submitted, isMine, hash, f)
      case PendingEvent(_, _, outpoint) => SignEnded(SaveEnd(v, MarkPending(outpoint), luck), submitted, None)
      case FailedEvent(_, _, inputs) =>
        SignEnded(if Applicable(Release(inputs), s) then SaveEnd(v, Release(inputs), luck)
                  else Ended(v, Err(NotReleased)), submitted, None)
      case ReadyEvent(_, _) => SignEnded(ReadyEnd(v, look, luck), submitted, None)
  }

  // ----- coins for a quote -----

  function Unreserved(coins: seq<Funding.Coin>, reserved: set<Outpoint>): seq<Funding.Coin>
  {
    if coins == [] then []
    else (if coins[0].outpoint in reserved then [] else [coins[0]]) + Unreserved(coins[1..], reserved)
  }

  lemma {:induction false} AllUnreserved(coins: seq<Funding.Coin>)
    ensures Unreserved(coins, {}) == coins
  {
    if coins != [] {
      AllUnreserved(coins[1..]);
    }
  }
}
