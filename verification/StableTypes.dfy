/**
 * The persisted state of the stable-balance client and the messages of its
 * provider. Dollar amounts count nano-dollars; times are milliseconds unless
 * they are named seconds.
 */
module StableTypes {
  import opened Results

  const TRADE_TLV := 13_377_331
  const SETTLEMENT_TLV := 13_377_333
  const SETTLEMENT_TTL := 14 * 24 * 60 * 60
  const CENT := 10_000_000
  /** The largest dollar amount whose nano-dollars are a safe JavaScript integer. */
  const MAX_USD_UNITS := 9_007_199_254_740_991

  /** A dollar amount as decoding leaves it: below one cent it reads as zero. */
  type Usd = n: nat | n == 0 || CENT <= n <= MAX_USD_UNITS

  /** 32 bytes in hexadecimal. */
  type Id = string

  datatype Correlation = Correlation(tradeId: Id, paymentId: Id, requestHash: Id)

  datatype Direction = LspToUser | UserToLsp

  datatype Message =
    | Sync(channelId: Id, expected: Usd, version: nat, correlation: Option<Correlation>)
    | Rejected(channelId: Id, rejects: Correlation)
    | Settlement(channelId: Id, expected: Usd, settlementId: Id, amountMsat: nat,
                 createdAtSecs: nat, expiresAtSecs: nat, direction: Direction)

  /** A custom TLV record; `message` is None when it does not decode or its signature is wrong. */
  datatype Record = Record(tlv: nat, message: Option<Message>)

  datatype Receipt = SyncReceipt(version: nat) | SettlementReceipt(id: Id)

  datatype Position = Position(channelId: Id, target: Usd, backing: nat, syncVersion: nat,
                               lastSettlementAt: int, receipts: map<Id, Receipt>)

  datatype Payload =
    | TradeRequest(channelId: Id, userChannelId: string, tradeId: Id, expected: Usd, priceCents: int, tsSecs: int)
    | SettlementNote(settlementId: Id, channelId: Id, amountMsat: nat, direction: Direction, expected: Usd,
                     createdAtSecs: int, expiresAtSecs: int)

  datatype Kind = Trade | Settle

  datatype Intent = Intent(kind: Kind, paymentId: Id, amountMsat: nat, target: Usd, backing: nat, channelId: Id,
                           correlation: Option<Correlation>, payload: Payload, tlv: nat, createdAt: int, sent: bool)

  datatype Received = Received(paymentId: Id, channelId: Id, amountSats: nat)
  datatype FirstReceive = FirstReceive(hashes: seq<Id>, received: Option<Received>, attempted: bool)

  datatype InboxEntry = InboxEntry(paymentId: Id, amountMsat: nat, channelIds: seq<Id>, receivedAt: int,
                                   records: seq<Record>)

  datatype State = State(revision: nat, enabled: bool, paused: bool, provider: string,
                         position: Option<Position>, pending: Option<Intent>,
                         firstReceive: Option<FirstReceive>, inbox: seq<InboxEntry>)

  function InitialState(provider: string): State { State(0, false, false, provider, None, None, None, []) }

  predicate InInbox(inbox: seq<InboxEntry>, paymentId: Id) { exists e | e in inbox :: e.paymentId == paymentId }

  ghost predicate DistinctIds(inbox: seq<InboxEntry>)
  {
    forall i, j | 0 <= i < j < |inbox| :: inbox[i].paymentId != inbox[j].paymentId
  }

  /** The inbox without the entries of one payment. */
  function Without(inbox: seq<InboxEntry>, paymentId: Id): seq<InboxEntry>
  {
    if inbox == [] then []
    else
      var n := |inbox| - 1;
      Without(inbox[..n], paymentId) + if inbox[n].paymentId == paymentId then [] else [inbox[n]]
  }

  lemma {:induction false} WithoutMembers(inbox: seq<InboxEntry>, paymentId: Id)
    ensures forall e :: e in Without(inbox, paymentId) <==> e in inbox && e.paymentId != paymentId
    ensures |Without(inbox, paymentId)| <= |inbox|
    ensures InInbox(inbox, paymentId) ==> |Without(inbox, paymentId)| < |inbox|
  {
    if inbox != [] {
      var n := |inbox| - 1;
      WithoutMembers(inbox[..n], paymentId);
      assert inbox == inbox[..n] + [inbox[n]];
    }
  }

  /** With distinct ids dropping one payment takes its one entry out and keeps the order of the others. */
  lemma {:induction false} WithoutTakesOne(inbox: seq<InboxEntry>, k: nat)
    requires DistinctIds(inbox) && k < |inbox|
    ensures Without(inbox, inbox[k].paymentId) == inbox[..k] + inbox[k + 1..]
    decreases |inbox|
  {
    var n := |inbox| - 1;
    if k < n {
      WithoutTakesOne(inbox[..n], k);
      assert inbox[..n][..k] == inbox[..k];
      assert inbox[k + 1..] == inbox[..n][k + 1..] + [inbox[n]];
    } else {
      WithoutNone(inbox[..n], inbox[n].paymentId);
      assert inbox[n + 1..] == [] && inbox[..n] + [] == inbox[..n];
    }
  }

  lemma {:induction false} WithoutNone(inbox: seq<InboxEntry>, paymentId: Id)
    requires forall i | 0 <= i < |inbox| :: inbox[i].paymentId != paymentId
    ensures Without(inbox, paymentId) == inbox
  {
    if inbox != [] {
      WithoutNone(inbox[..|inbox| - 1], paymentId);
    }
  }

  lemma {:induction false} WithoutKeepsDistinct(inbox: seq<InboxEntry>, paymentId: Id)
    requires DistinctIds(inbox)
    ensures DistinctIds(Without(inbox, paymentId))
  {
    if inbox != [] {
      var n := |inbox| - 1;
      WithoutKeepsDistinct(inbox[..n], paymentId);
      WithoutMembers(inbox[..n], paymentId);
      var kept := Without(inbox[..n], paymentId);
      forall i | 0 <= i < |kept| ensures kept[i].paymentId != inbox[n].paymentId {
        assert kept[i] in inbox[..n];
      }
    }
  }

  // ----- what the surroundings answer -----

  datatype Channel = Channel(channelId: Id, userChannelId: string, receiverSats: nat, spendableSats: nat,
                             inboundSats: nat, usable: bool)

  datatype StableError =
    | Stopped
    | StoreFailed
    | ChannelAmbiguous
    | ChannelNotReady
    | PreviousChannelClosed
    | WaitForSync
    | NoFreshPrice
    | Busy
    | Refused(reason: Reason)
    | WaitForCapacity
    | MissingPosition
    | SendRejected
    | SendFailed

  datatype Reason =
    | Allocation
    | NoInbound
    | TooLarge
    | SameTarget
    | QuoteChanged
    | TooSmall
    | OtherChannel
    | StillOpen

  /** The direct channel to the provider; the lookup throws when there are several. */
  datatype Lookup = Ambiguous | Absent | Direct(channel: Channel)

  /**
   * One look at the surroundings: the clock, the provider's channel, whether payments may leave, and when the chain was last synced.
   */
  datatype Env = Env(now: int, channel: Lookup, canSend: bool, lastSync: int)

  /** What the client holds in memory about prices. */
  datatype Price = Price(priceCents: int, observedAt: int)

  datatype PaymentEvent =
    | PaymentSent(paymentId: Id)
    | PaymentFailed(paymentId: Id)
    | PaymentReceived(paymentId: Id, amountMsat: nat, channelIds: seq<Id>, records: seq<Record>)
}
