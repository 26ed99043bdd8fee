/**
 * Every change that the client saves, what it needs to find in the state, and
 * the log of payments that a position has absorbed.
 */
module StableChanges {
  import opened Results
  import opened Arithmetic
  import opened StableTypes

  datatype Change =
    | Enable(provider: string)
    | PrepareFirst(provider: string, hash: Id)
    | Pause(paused: bool)
    | ClearClosed
    | Rebind(channelId: Id)
    | Propose(intent: Intent)
    | Withdraw                                    // not handed to LDK after all
    | PayFailed
    | TradePaid
    | SettlementPaid(now: int)
    | TradeRefused(paymentId: Id)
    | Synced(paymentId: Id, channelId: Id, target: Usd, backing: nat, version: nat)
    | ToppedUp(paymentId: Id, settlementId: Id, backing: nat, now: int)
    | Drop(paymentId: Id)
    | FirstReceived(received: Received)
    | Enqueue(entry: InboxEntry)

  function AddHash(hashes: seq<Id>, hash: Id): seq<Id> { if hash in hashes then hashes else hashes + [hash] }

  function WithPosition(s: State, p: Position): State { s.(position := Some(p)) }

  /** The state that a change saves, before the revision counter moves. */
  function Edit(c: Change, s: State): State
    requires Applicable(c, s)
  {
    match c
    case Enable(provider) => s.(enabled := true, provider := provider)
    case PrepareFirst(provider, hash) =>
      var hashes := if s.firstReceive.Some? then s.firstReceive.value.hashes else [];
      s.(enabled := true, provider := provider,
         firstReceive := Some(FirstReceive(AddHash(hashes, hash), None, false)))
    case Pause(paused) => s.(paused := paused)
    case ClearClosed => s.(position := None)
    case Rebind(channelId) => WithPosition(s, s.position.value.(channelId := channelId))
    case Propose(intent) =>
      var first := if intent.kind == Trade && s.firstReceive.Some? && s.firstReceive.value.received.Some?
                   then Some(s.firstReceive.value.(attempted := true)) else s.firstReceive;
      s.(pending := Some(intent), firstReceive := first)
    case Withdraw => s.(pending := None)
    case PayFailed => s.(pending := None)
    case TradePaid => s.(pending := Some(s.pending.value.(sent := true)))
    case SettlementPaid(now) =>
      WithPosition(s, s.position.value.(backing := s.pending.value.backing, lastSettlementAt := now)).(pending := None)
    case TradeRefused(_) => s.(pending := None)
    case Synced(paymentId, channelId, target, backing, version) =>
      var receipts := if s.position.Some? then s.position.value.receipts else map[];
      var settledAt := if s.position.Some? then s.position.value.lastSettlementAt else 0;
      WithPosition(s, Position(channelId, target, backing, version, settledAt,
                               receipts[paymentId := SyncReceipt(version)])).(pending := None)
    case ToppedUp(paymentId, settlementId, backing, now) =>
      var p := s.position.value;
      WithPosition(s, p.(backing := backing, lastSettlementAt := now,
                         receipts := p.receipts[paymentId := SettlementReceipt(settlementId)]))
    case Drop(paymentId) => s.(inbox := Without(s.inbox, paymentId))
    case FirstReceived(received) => s.(firstReceive := Some(s.firstReceive.value.(received := Some(received))))
    case Enqueue(entry) => s.(inbox := s.inbox + [entry])
  }

  function Apply(c: Change, s: State): State
    requires Applicable(c, s)
  {
    Edit(c, s).(revision := s.revision + 1)
  }

  predicate KnownPayment(s: State, paymentId: Id)
  {
    s.position.Some? && paymentId in s.position.value.receipts
  }

  predicate NewSettlement(p: Position, settlementId: Id)
  {
    forall id | id in p.receipts :: p.receipts[id] != SettlementReceipt(settlementId)
  }

  /** An intent as the client forms it over the position it finds. */
  predicate WellFormed(i: Intent, s: State)
  {
    && !i.sent
    && (i.kind == Trade <==> i.correlation.Some?)
    && (s.position.Some? ==> s.position.value.channelId == i.channelId)
    && (i.kind == Settle ==>
          && s.position.Some?
          && i.target == s.position.value.target
          && i.amountMsat % 1000 == 0
          && i.backing + i.amountMsat / 1000 == s.position.value.backing)
  }

  /** What the code has checked by the time it saves the change. */
  predicate Applicable(c: Change, s: State)
  {
    match c
    case Enable(_) => true
    case PrepareFirst(_, _) => true
    case Pause(_) => true
    case ClearClosed => s.position.Some? && s.pending.None? && s.inbox == []
    case Rebind(_) => s.position.Some? && s.pending.None? && s.inbox == []
    case Propose(intent) => s.enabled && s.pending.None? && s.inbox == [] && WellFormed(intent, s)
    case Withdraw => s.pending.Some?
    case PayFailed => s.pending.Some?
    case TradePaid => s.pending.Some? && s.pending.value.kind == Trade
    case SettlementPaid(_) => s.pending.Some? && s.pending.value.kind == Settle && s.position.Some?
    case TradeRefused(paymentId) =>
      && InInbox(s.inbox, paymentId) && s.pending.Some? && s.pending.value.kind == Trade
    case Synced(paymentId, channelId, target, backing, version) =>
      && InInbox(s.inbox, paymentId) && !KnownPayment(s, paymentId)
      && version > (if s.position.Some? then s.position.value.syncVersion else 0)
      && (s.position.Some? ==> s.position.value.channelId == channelId)
      && (if s.pending.Some? then
            && s.pending.value.kind == Trade
            && Abs(s.pending.value.target - target) <= 1
            && backing == s.pending.value.backing
          else s.position.Some? && target <= s.position.value.target)
    case ToppedUp(paymentId, settlementId, backing, _) =>
      && InInbox(s.inbox, paymentId) && !KnownPayment(s, paymentId)
      && s.pending.None? && s.position.Some?
      && NewSettlement(s.position.value, settlementId)
      && backing >= s.position.value.backing
    case Drop(paymentId) => InInbox(s.inbox, paymentId)
    case FirstReceived(received) => s.firstReceive.Some? && s.firstReceive.value.received.None?
    case Enqueue(entry) => !InInbox(s.inbox, entry.paymentId) && !KnownPayment(s, entry.paymentId)
  }

  // ----- the log of a position -----

  /** A payment that changed the position, and by how many satoshis. */
  datatype Effect =
    | SyncEffect(paymentId: Id, version: nat, target: Usd, delta: int)
    | TopUpEffect(paymentId: Id, settlementId: Id, delta: int)
    | DebitEffect(paymentId: Id, delta: int)

  /** `closed` names the outgoing payments whose fate the state has recorded. */
  datatype Log = Log(effects: seq<Effect>, closed: set<Id>)

  function ClosePending(s: State, log: Log): Log
  {
    if s.pending.Some? then log.(closed := log.closed + {s.pending.value.paymentId}) else log
  }

  function Backing(s: State): int { if s.position.Some? then s.position.value.backing else 0 }

  function LogAfter(c: Change, s: State, log: Log): Log
    requires Applicable(c, s)
  {
    match c
    case ClearClosed => log.(effects := [])
    case Withdraw => ClosePending(s, log)
    case PayFailed => ClosePending(s, log)
    case TradeRefused(_) => ClosePending(s, log)
    case SettlementPaid(_) =>
      ClosePending(s, log).(effects := log.effects
                            + [DebitEffect(s.pending.value.paymentId, s.pending.value.backing - Backing(s))])
    case Synced(paymentId, _, target, backing, version) =>
      ClosePending(s, log).(effects := log.effects + [SyncEffect(paymentId, version, target, backing - Backing(s))])
    case ToppedUp(paymentId, settlementId, backing, _) =>
      log.(effects := log.effects + [TopUpEffect(paymentId, settlementId, backing - Backing(s))])
    case Enable(_) => log
    case PrepareFirst(_, _) => log
    case Pause(_) => log
    case Rebind(_) => log
    case Propose(_) => log
    case TradePaid => log
    case Drop(_) => log
    case FirstReceived(_) => log
    case Enqueue(_) => log
  }

  /** What a log adds up to. */
  datatype Tally = Tally(balance: int, target: nat, version: nat, receipts: map<Id, Receipt>)

  function Count(t: Tally, e: Effect): Tally
  {
    match e
    case SyncEffect(id, version, target, delta) =>
      Tally(t.balance + delta, target, version, t.receipts[id := SyncReceipt(version)])
    case TopUpEffect(id, settlementId, delta) =>
      t.(balance := t.balance + delta, receipts := t.receipts[id := SettlementReceipt(settlementId)])
    case DebitEffect(_, delta) => t.(balance := t.balance + delta)
  }

  function Replay(effects: seq<Effect>): Tally
  {
    if effects == [] then Tally(0, 0, 0, map[])
    else Count(Replay(effects[..|effects| - 1]), effects[|effects| - 1])
  }

  /** A payment is new to the tally: its id, and its version or settlement id, were never counted. */
  predicate Fresh(t: Tally, e: Effect)
  {
    match e
    case SyncEffect(id, version, _, _) => id !in t.receipts && version > t.version
    case TopUpEffect(id, settlementId, _) =>
      id !in t.receipts && forall k | k in t.receipts :: t.receipts[k] != SettlementReceipt(settlementId)
    case DebitEffect(_, _) => true
  }

  predicate Clean(effects: seq<Effect>)
  {
    effects == [] || (Clean(effects[..|effects| - 1])
                      && Fresh(Replay(effects[..|effects| - 1]), effects[|effects| - 1]))
  }

  lemma {:induction false} CountedPaymentsStay(effects: seq<Effect>, j: nat)
    requires Clean(effects) && j < |effects| && !effects[j].DebitEffect?
    ensures effects[j].paymentId in Replay(effects).receipts
    ensures Replay(effects).receipts[effects[j].paymentId] == ReceiptOf(effects[j])
    ensures effects[j].SyncEffect? ==> effects[j].version <= Replay(effects).version
    decreases |effects|
  {
    var n := |effects| - 1;
    if j < n {
      CountedPaymentsStay(effects[..n], j);
    }
  }

  function ReceiptOf(e: Effect): Receipt
    requires !e.DebitEffect?
  {
    if e.SyncEffect? then SyncReceipt(e.version) else SettlementReceipt(e.settlementId)
  }

  /**
   * In a clean log no received payment counts twice, no settlement id and no sync version repeats, and the
   * versions rise.
   */
  lemma CleanCountsOnce(effects: seq<Effect>, i: nat, j: nat)
    requires Clean(effects) && i < j < |effects|
    requires !effects[i].DebitEffect? && !effects[j].DebitEffect?
    ensures effects[i].paymentId != effects[j].paymentId
    ensures ReceiptOf(effects[i]) != ReceiptOf(effects[j])
    ensures effects[i].SyncEffect? && effects[j].SyncEffect? ==> effects[i].version < effects[j].version
  {
    CleanPrefix(effects, j + 1);
    assert effects[..j + 1][..j] == effects[..j];
    CountedPaymentsStay(effects[..j], i);
  }

  lemma {:induction false} CleanPrefix(effects: seq<Effect>, n: nat)
    requires Clean(effects) && n <= |effects|
    ensures Clean(effects[..n])
    decreases |effects|
  {
    if n < |effects| {
      CleanPrefix(effects[..|effects| - 1], n);
      assert effects[..|effects| - 1][..n] == effects[..n];
    } else {
      assert effects[..n] == effects;
    }
  }

  // ----- a state with its log -----

  datatype Copy = Copy(state: State, log: Log)

  function Next(c: Change, x: Copy): Copy
    requires Applicable(c, x.state)
  {
    Copy(Apply(c, x.state), LogAfter(c, x.state, x.log))
  }

  /** A pending settlement was computed from the very position that the state still holds. */
  ghost predicate SettlementMatches(s: State)
  {
    s.pending.Some? && s.pending.value.kind == Settle ==>
      && s.position.Some?
      && s.position.value.target == s.pending.value.target
      && s.position.value.channelId == s.pending.value.channelId
      && s.pending.value.amountMsat % 1000 == 0
      && s.position.value.backing == s.pending.value.backing + s.pending.value.amountMsat / 1000
  }

  /** The position is exactly what its log adds up to. */
  ghost predicate PositionIsReplay(x: Copy)
  {
    && Clean(x.log.effects)
    && (match x.state.position
        case None => x.log.effects == []
        case Some(p) => Replay(x.log.effects) == Tally(p.backing, p.target, p.syncVersion, p.receipts))
  }

  /** Nothing that the provider acknowledged exceeds what the client committed by more than one unit. */
  ghost predicate TargetsBounded(s: State, peak: nat)
  {
    && (s.position.Some? ==> s.position.value.target <= peak + 1)
    && (s.pending.Some? && s.pending.value.kind == Trade ==> s.pending.value.target <= peak)
  }

  ghost predicate PendingIsOpen(x: Copy, issued: set<Id>)
  {
    && x.log.closed <= issued
    && (x.state.pending.Some? ==>
          && x.state.enabled
          && x.state.pending.value.paymentId in issued
          && x.state.pending.value.paymentId !in x.log.closed
          && (x.state.pending.value.kind == Trade <==> x.state.pending.value.correlation.Some?))
  }

  ghost predicate CopyInv(x: Copy, issued: set<Id>, peak: nat)
  {
    && DistinctIds(x.state.inbox)
    && SettlementMatches(x.state)
    && PositionIsReplay(x)
    && TargetsBounded(x.state, peak)
    && PendingIsOpen(x, issued)
  }

  /** The ids and targets that the client has ever put into an intent, once `c` is among them. */
  function IssuedAfter(c: Change, issued: set<Id>): set<Id>
  {
    if c.Propose? then issued + {c.intent.paymentId} else issued
  }

  function PeakAfter(c: Change, peak: nat): nat
  {
    if c.Propose? && c.intent.kind == Trade && c.intent.target > peak then c.intent.target else peak
  }

  /** A new intent has a payment id that was never used. */
  predicate UsesFreshId(c: Change, issued: set<Id>) { c.Propose? ==> c.intent.paymentId !in issued }

  lemma ReplayGrows(effects: seq<Effect>, e: Effect)
    ensures Replay(effects + [e]) == Count(Replay(effects), e)
    ensures Clean(effects + [e]) <==> Clean(effects) && Fresh(Replay(effects), e)
  {
    var longer := effects + [e];
    assert longer[..|longer| - 1] == effects;
  }

  lemma EffectKeepsReplay(x: Copy, c: Change)
    requires Applicable(c, x.state) && PositionIsReplay(x)
    ensures PositionIsReplay(Next(c, x))
  {
    match c {
      case ClearClosed =>
      case SettlementPaid(_) => SettlementKeepsReplay(x, c);
      case Synced(_, _, _, _, _) => SyncKeepsReplay(x, c);
      case ToppedUp(_, _, _, _) => TopUpKeepsReplay(x, c);
      case _ => hide Replay, Clean;
    }
  }

  lemma SettlementKeepsReplay(x: Copy, c: Change)
    requires c.SettlementPaid? && Applicable(c, x.state) && PositionIsReplay(x)
    ensures PositionIsReplay(Next(c, x))
  {
    hide Replay, Clean;
    var intent := x.state.pending.value;
    ReplayGrows(x.log.effects, DebitEffect(intent.paymentId, intent.backing - Backing(x.state)));
  }

  /** What a position adds up to; nothing while there is none. */
  function TallyOf(s: State): Tally
  {
    match s.position
    case None => Tally(0, 0, 0, map[])
    case Some(p) => Tally(p.backing, p.target, p.syncVersion, p.receipts)
  }

  lemma ReplayIsTally(x: Copy)
    requires PositionIsReplay(x)
    ensures Clean(x.log.effects) && Replay(x.log.effects) == TallyOf(x.state)
  {
    hide Clean;
  }

  lemma SyncCounts(s: State, c: Change)
    requires c.Synced? && Applicable(c, s)
    ensures var e := SyncEffect(c.paymentId, c.version, c.target, c.backing - Backing(s));
            && Fresh(TallyOf(s), e)
            && Count(TallyOf(s), e) == TallyOf(Edit(c, s)) == TallyOf(Apply(c, s))
            && Apply(c, s).position.Some?
  {
  }

  lemma SyncKeepsReplay(x: Copy, c: Change)
    requires c.Synced? && Applicable(c, x.state) && PositionIsReplay(x)
    ensures PositionIsReplay(Next(c, x))
  {
    hide Replay, Clean, Apply, Edit, Applicable, Count, Fresh;
    var e := SyncEffect(c.paymentId, c.version, c.target, c.backing - Backing(x.state));
    ReplayIsTally(x);
    SyncCounts(x.state, c);
    ReplayGrows(x.log.effects, e);
  }

  lemma TopUpKeepsReplay(x: Copy, c: Change)
    requires c.ToppedUp? && Applicable(c, x.state) && PositionIsReplay(x)
    ensures PositionIsReplay(Next(c, x))
  {
    hide Replay, Clean;
    ReplayGrows(x.log.effects, TopUpEffect(c.paymentId, c.settlementId, c.backing - Backing(x.state)));
  }

  lemma InboxStaysDistinct(s: State, c: Change)
    requires Applicable(c, s) && DistinctIds(s.inbox)
    ensures DistinctIds(Apply(c, s).inbox)
  {
    if c.Drop? {
      WithoutKeepsDistinct(s.inbox, c.paymentId);
    } else if c.Enqueue? {
      assert forall i | 0 <= i < |s.inbox| :: s.inbox[i] in s.inbox;
    }
  }

  lemma SettlementStaysMatched(x: Copy, c: Change)
    requires Applicable(c, x.state) && SettlementMatches(x.state)
    ensures SettlementMatches(Apply(c, x.state))
  {
  }

  lemma TargetsStayBounded(s: State, c: Change, peak: nat)
    requires Applicable(c, s) && TargetsBounded(s, peak)
    ensures TargetsBounded(Apply(c, s), PeakAfter(c, peak))
  {
  }

  lemma PendingStaysOpen(x: Copy, c: Change, issued: set<Id>)
    requires Applicable(c, x.state) && PendingIsOpen(x, issued) && UsesFreshId(c, issued)
    ensures PendingIsOpen(Next(c, x), IssuedAfter(c, issued))
  {
  }

  /** Every change that the code saves keeps every invariant of the state. */
  lemma ChangeKeepsInv(x: Copy, c: Change, issued: set<Id>, peak: nat)
    requires Applicable(c, x.state) && CopyInv(x, issued, peak) && UsesFreshId(c, issued)
    ensures CopyInv(Next(c, x), IssuedAfter(c, issued), PeakAfter(c, peak))
  {
    EffectKeepsReplay(x, c);
    InboxStaysDistinct(x.state, c);
    SettlementStaysMatched(x, c);
    TargetsStayBounded(x.state, c, peak);
    PendingStaysOpen(x, c, issued);
    hide PositionIsReplay, DistinctIds, SettlementMatches, TargetsBounded, PendingIsOpen, Apply, LogAfter, Applicable;
  }

  lemma InvWeakens(x: Copy, issued: set<Id>, peak: nat, issued': set<Id>, peak': nat)
    requires CopyInv(x, issued, peak) && issued <= issued' && peak <= peak'
    ensures CopyInv(x, issued', peak')
  {
  }

  // ----- what one change can do -----

  /** Same intent, whether or not it has been marked as sent. */
  predicate SameIntent(a: Intent, b: Intent) { a.(sent := false) == b.(sent := false) }

  /**
   * A pending intent is never replaced and freezes the position's dollars and satoshis until the change that
   * resolves it; that change records its payment id as closed.
   */
  lemma PendingFreezes(x: Copy, c: Change)
    requires Applicable(c, x.state) && x.state.pending.Some?
    ensures var y := Next(c, x);
            if y.state.pending.Some? then
              && SameIntent(y.state.pending.value, x.state.pending.value)
              && y.state.position == x.state.position
              && y.log == x.log
            else x.state.pending.value.paymentId in y.log.closed
  {
  }

  /** The payment of a settlement debits exactly the satoshis it carries. */
  lemma SettlementDebitsItsAmount(x: Copy, now: int, issued: set<Id>, peak: nat)
    requires Applicable(SettlementPaid(now), x.state) && CopyInv(x, issued, peak)
    ensures var p, q := x.state.position.value, Next(SettlementPaid(now), x).state.position.value;
            && p.backing - q.backing == x.state.pending.value.amountMsat / 1000
            && q == p.(backing := q.backing, lastSettlementAt := now)
  {
  }

  /**
   * Only a clearing, a sync, a top-up or a paid settlement touches the position's amounts, and each of the last
   * three adds one effect with the difference it makes.
   */
  lemma PositionMovesByEffects(x: Copy, c: Change)
    requires Applicable(c, x.state) && !c.ClearClosed?
    requires Next(c, x).state.position != x.state.position && !c.Rebind?
    ensures var y := Next(c, x);
            && |y.log.effects| == |x.log.effects| + 1
            && y.log.effects[..|x.log.effects|] == x.log.effects
            && y.log.effects[|x.log.effects|].delta == Backing(y.state) - Backing(x.state)
  {
  }
}
