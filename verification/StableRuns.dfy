/**
 * Runs of the stable-balance client: flushes, saves, the one call that hands a
 * payment to LDK, and crashes between any two of them. The world keeps the
 * copy in memory and the copies on disk, each with the log of its position.
 */
module StableRuns {
  import opened Results
  import opened StableTypes
  import opened StableStore
  import opened StableChanges

  /** Where a payment attempt is: its intent has just been saved, or LDK has been called. */
  datatype Phase = Resting | Armed(intent: Intent) | Launched(intent: Intent)

  /** `sends` lists the calls to LDK; `peak` is the largest trade target ever put into an intent. */
  datatype World = World(store: Image<Copy>, phase: Phase, sends: seq<Intent>, issued: set<Id>, peak: nat)

  datatype Event =
    | FlushLocal(ok: bool)
    | Save(change: Change, luck: Luck)
    | Launch
    | Rest
    | Crash

  function InitialCopy(provider: string): Copy { Copy(InitialState(provider), Log([], {})) }

  function Start(remotely: bool, provider: string): World
  {
    World(Image(remotely, InitialCopy(provider), false, 0, None, None), Resting, [], {}, 0)
  }

  predicate Enabled(w: World, e: Event)
  {
    match e
    case FlushLocal(_) => w.phase == Resting
    case Save(change, _) =>
      && !w.store.dirty
      && Applicable(change, w.store.memory.state)
      && UsesFreshId(change, w.issued)
      && (w.phase == Resting <==> change != Withdraw)
    case Launch => w.phase.Armed?
    case Rest => w.phase.Launched?
    case Crash => true
  }

  function After(w: World, e: Event, provider: string): World
    requires Enabled(w, e)
  {
    match e
    case FlushLocal(ok) => w.(store := Flushed(w.store, ok))
    case Save(change, luck) =>
      var phase := if change.Propose? && SaveWorks(w.store, luck) then Armed(change.intent) else Resting;
      World(Saved(w.store, Next(change, w.store.memory), luck), phase, w.sends,
            IssuedAfter(change, w.issued), PeakAfter(change, w.peak))
    case Launch => w.(phase := Launched(w.phase.intent), sends := w.sends + [w.phase.intent])
    case Rest => w.(phase := Resting)
    case Crash => w.(store := Reloaded(w.store, InitialCopy(provider)), phase := Resting)
  }

  // ----- the invariant -----

  /** One change leads from the first copy to the second. */
  ghost predicate OneAhead(x: Copy, y: Copy)
  {
    exists c :: Applicable(c, x.state) && y == Next(c, x)
  }

  function OnDisk(w: World, provider: string): Copy { Recovered(w.store, InitialCopy(provider)) }

  /** A payment handed to LDK is the pending one, or its fate is on record. */
  predicate Accounted(i: Intent, x: Copy)
  {
    i.paymentId in x.log.closed || (x.state.pending.Some? && SameIntent(i, x.state.pending.value))
  }

  ghost predicate SendsAccounted(sends: seq<Intent>, x: Copy) { forall i | i in sends :: Accounted(i, x) }

  ghost predicate SendsDistinct(sends: seq<Intent>, issued: set<Id>)
  {
    && (forall i | i in sends :: i.paymentId in issued)
    && (forall j, k | 0 <= j < k < |sends| :: sends[j].paymentId != sends[k].paymentId)
  }

  ghost predicate PhaseInv(w: World)
  {
    w.phase.Armed? ==>
      && w.store.memory.state.pending == Some(w.phase.intent)
      && DriftOf(w.store) == Together && !w.store.dirty
      && forall i | i in w.sends :: i.paymentId != w.phase.intent.paymentId
  }

  ghost predicate DriftInv(w: World, provider: string)
  {
    && Coherent(w.store, InitialCopy(provider))
    && (DriftOf(w.store) == DiskAhead ==> OneAhead(w.store.memory, OnDisk(w, provider)))
    && (DriftOf(w.store) == MemoryAhead ==> OneAhead(OnDisk(w, provider), w.store.memory))
  }

  ghost predicate Inv(w: World, provider: string)
  {
    && DriftInv(w, provider)
    && CopyInv(w.store.memory, w.issued, w.peak)
    && CopyInv(OnDisk(w, provider), w.issued, w.peak)
    && SendsDistinct(w.sends, w.issued)
    && SendsAccounted(w.sends, w.store.memory)
    && SendsAccounted(w.sends, OnDisk(w, provider))
    && PhaseInv(w)
  }

  lemma StartHasInv(remotely: bool, provider: string)
    ensures Inv(Start(remotely, provider), provider)
  {
  }

  lemma AccountedStays(i: Intent, x: Copy, c: Change)
    requires Applicable(c, x.state) && Accounted(i, x)
    ensures Accounted(i, Next(c, x))
  {
  }

  /** The new copy of a save has all that the invariant asks of a copy. */
  lemma NextCopyInv(w: World, provider: string, c: Change)
    requires Inv(w, provider) && Applicable(c, w.store.memory.state) && UsesFreshId(c, w.issued)
    ensures var y := Next(c, w.store.memory);
            && CopyInv(y, IssuedAfter(c, w.issued), PeakAfter(c, w.peak))
            && SendsAccounted(w.sends, y)
            && OneAhead(w.store.memory, y)
            && CopyInv(w.store.memory, IssuedAfter(c, w.issued), PeakAfter(c, w.peak))
            && CopyInv(OnDisk(w, provider), IssuedAfter(c, w.issued), PeakAfter(c, w.peak))
  {
    hide CopyInv, Accounted, Next;
    var issued, peak := IssuedAfter(c, w.issued), PeakAfter(c, w.peak);
    ChangeKeepsInv(w.store.memory, c, w.issued, w.peak);
    InvWeakens(w.store.memory, w.issued, w.peak, issued, peak);
    InvWeakens(OnDisk(w, provider), w.issued, w.peak, issued, peak);
    forall i | i in w.sends ensures Accounted(i, Next(c, w.store.memory)) {
      AccountedStays(i, w.store.memory, c);
    }
  }

  /** Each copy after a save is one of the three that were around it. */
  lemma SaveCopies(w: World, provider: string, c: Change, luck: Luck)
    requires Inv(w, provider) && Enabled(w, Save(c, luck))
    ensures var v, y := After(w, Save(c, luck), provider), Next(c, w.store.memory);
            && DriftInv(v, provider)
            && v.store.memory in {w.store.memory, y}
            && OnDisk(v, provider) in {w.store.memory, OnDisk(w, provider), y}
            && (SaveWorks(w.store, luck) ==> v.store.memory == y && DriftOf(v.store) == Together && !v.store.dirty)
  {
    var y := Next(c, w.store.memory);
    SaveMovesDrift(w.store, InitialCopy(provider), y, luck);
    assert OneAhead(w.store.memory, y);
    hide CopyInv, Next, Saved, Recovered, Accounted, Applicable;
  }

  lemma SaveKeepsInv(w: World, provider: string, c: Change, luck: Luck)
    requires Inv(w, provider) && Enabled(w, Save(c, luck))
    ensures Inv(After(w, Save(c, luck), provider), provider)
  {
    var v := After(w, Save(c, luck), provider);
    var y := Next(c, w.store.memory);
    NextCopyInv(w, provider, c);
    SaveCopies(w, provider, c, luck);
    assert v.phase.Armed? ==> y.state.pending == Some(v.phase.intent);
    assert SendsDistinct(v.sends, v.issued);
    assert PhaseInv(v);
    hide CopyInv, Next, Saved, Recovered, Accounted, Applicable, DriftInv, SaveWorks, SendsAccounted, SendsDistinct, PhaseInv;
  }

  lemma StepKeepsInv(w: World, provider: string, e: Event)
    requires Inv(w, provider) && Enabled(w, e)
    ensures Inv(After(w, e, provider), provider)
  {
    match e {
      case Save(c, luck) => SaveKeepsInv(w, provider, c, luck);
      case FlushLocal(ok) =>
        FlushRejoins(w.store, InitialCopy(provider), ok);
        hide CopyInv, Accounted, OneAhead, Flushed, Recovered;
      case Launch =>
        LaunchKeepsInv(w, provider);
      case Rest =>
        hide CopyInv, Accounted, OneAhead, Recovered;
      case Crash =>
        ReloadRejoins(w.store, InitialCopy(provider));
        hide CopyInv, Accounted, OneAhead, Reloaded, Recovered;
    }
  }

  lemma LaunchKeepsInv(w: World, provider: string)
    requires Inv(w, provider) && w.phase.Armed?
    ensures Inv(After(w, Launch, provider), provider)
  {
    assert SameIntent(w.phase.intent, w.phase.intent);
    hide OneAhead, Recovered;
  }

  // ----- runs -----

  ghost predicate Step(w: World, v: World, provider: string)
  {
    exists e :: Enabled(w, e) && v == After(w, e, provider)
  }

  ghost predicate IsRun(ws: seq<World>, remotely: bool, provider: string)
  {
    && ws != []
    && ws[0] == Start(remotely, provider)
    && forall i | 0 <= i < |ws| - 1 :: Step(ws[i], ws[i + 1], provider)
  }

  lemma {:induction false} EveryRunKeepsInv(ws: seq<World>, remotely: bool, provider: string, n: nat)
    requires IsRun(ws, remotely, provider) && n < |ws|
    ensures Inv(ws[n], provider)
    decreases n
  {
    if n == 0 {
      StartHasInv(remotely, provider);
    } else {
      EveryRunKeepsInv(ws, remotely, provider, n - 1);
      assert Step(ws[n - 1], ws[n - 1 + 1], provider);
      var e :| Enabled(ws[n - 1], e) && ws[n] == After(ws[n - 1], e, provider);
      StepKeepsInv(ws[n - 1], provider, e);
    }
  }

  /**
   * Whenever LDK is called, the intent is the pending one in memory and in what a crash would recover, its
   * payment id was never sent before, and every earlier payment has its fate on record.
   */
  lemma SavedBeforeItsOnlySend(ws: seq<World>, remotely: bool, provider: string, n: nat)
    requires IsRun(ws, remotely, provider) && n < |ws| && ws[n].phase.Armed?
    ensures var w := ws[n];
            && w.store.memory.state.pending == Some(w.phase.intent)
            && OnDisk(w, provider) == w.store.memory
            && After(w, Launch, provider).sends == w.sends + [w.phase.intent]
            && (forall i | i in w.sends ::
                  i.paymentId != w.phase.intent.paymentId && i.paymentId in w.store.memory.log.closed)
  {
    EveryRunKeepsInv(ws, remotely, provider, n);
    var w := ws[n];
    forall i | i in w.sends ensures i.paymentId in w.store.memory.log.closed {
      assert Accounted(i, w.store.memory);
    }
  }

  /** Only a launch calls LDK, and it calls it for the armed intent. */
  lemma OnlyLaunchSends(w: World, e: Event, provider: string)
    requires Enabled(w, e) && After(w, e, provider).sends != w.sends
    ensures e == Launch && After(w, e, provider).sends == w.sends + [w.phase.intent]
  {
  }

  /** At most one payment is ever open, it is the pending one, and no crash forgets it. */
  lemma OneOpenPayment(ws: seq<World>, remotely: bool, provider: string, n: nat, i: Intent, j: Intent)
    requires IsRun(ws, remotely, provider) && n < |ws| && i in ws[n].sends && j in ws[n].sends
    requires i.paymentId !in ws[n].store.memory.log.closed && j.paymentId !in ws[n].store.memory.log.closed
    ensures i.paymentId == j.paymentId
    ensures ws[n].store.memory.state.pending.Some? && SameIntent(i, ws[n].store.memory.state.pending.value)
    ensures Accounted(i, OnDisk(ws[n], provider))
  {
    EveryRunKeepsInv(ws, remotely, provider, n);
    assert Accounted(i, ws[n].store.memory) && Accounted(j, ws[n].store.memory);
  }

  /**
   * No step of any run, a crash included, replaces a pending intent by another, and none moves the
   * position while an intent stays pending.
   */
  lemma PendingNeverReplaced(ws: seq<World>, remotely: bool, provider: string, n: nat)
    requires IsRun(ws, remotely, provider) && n + 1 < |ws|
    requires ws[n].store.memory.state.pending.Some? && ws[n + 1].store.memory.state.pending.Some?
    ensures var s, t := ws[n].store.memory.state, ws[n + 1].store.memory.state;
            && SameIntent(s.pending.value, t.pending.value)
            && s.position == t.position
  {
    EveryRunKeepsInv(ws, remotely, provider, n);
    assert Step(ws[n], ws[n + 1], provider);
    var e :| Enabled(ws[n], e) && ws[n + 1] == After(ws[n], e, provider);
    StepKeepsPending(ws[n], e, provider);
  }

  lemma StepKeepsPending(w: World, e: Event, provider: string)
    requires Inv(w, provider) && Enabled(w, e)
    requires w.store.memory.state.pending.Some? && After(w, e, provider).store.memory.state.pending.Some?
    ensures var s, t := w.store.memory.state, After(w, e, provider).store.memory.state;
            && SameIntent(s.pending.value, t.pending.value)
            && s.position == t.position
  {
    hide CopyInv, Accounted, Applicable, Next;
    var x, d := w.store.memory, OnDisk(w, provider);
    if e.Save? {
      PendingFreezes(x, e.change);
      SaveMovesDrift(w.store, InitialCopy(provider), Next(e.change, x), e.luck);
    } else if e.Crash? {
      if DriftOf(w.store) == DiskAhead {
        var c :| Applicable(c, x.state) && d == Next(c, x);
        PendingFreezes(x, c);
      } else if DriftOf(w.store) == MemoryAhead {
        var c :| Applicable(c, d.state) && x == Next(c, d);
        PendingFreezes(d, c);
      }
    }
  }

  /** A pending settlement is always the difference between the position and what will be left of it. */
  lemma PendingSettlementBalances(ws: seq<World>, remotely: bool, provider: string, n: nat)
    requires IsRun(ws, remotely, provider) && n < |ws|
    requires ws[n].store.memory.state.pending.Some? && ws[n].store.memory.state.pending.value.kind == Settle
    ensures var s := ws[n].store.memory.state;
            && s.position.Some?
            && s.position.value.target == s.pending.value.target
            && s.position.value.backing == s.pending.value.backing + s.pending.value.amountMsat / 1000
  {
    EveryRunKeepsInv(ws, remotely, provider, n);
  }

  /**
   * The position is at all times the sum of its effects, in which no received payment, settlement id or
   * sync version counts twice. Crashes and replays are steps like any other.
   */
  lemma PositionIsSumOfPaymentsCountedOnce(ws: seq<World>, remotely: bool, provider: string, n: nat)
    requires IsRun(ws, remotely, provider) && n < |ws|
    ensures var x := ws[n].store.memory;
            && Replay(x.log.effects).balance == Backing(x.state)
            && (x.state.position.Some? ==> x.state.position.value.receipts == Replay(x.log.effects).receipts)
            && (forall i, j | 0 <= i < j < |x.log.effects| &&
                              !x.log.effects[i].DebitEffect? && !x.log.effects[j].DebitEffect? ::
                  && x.log.effects[i].paymentId != x.log.effects[j].paymentId
                  && ReceiptOf(x.log.effects[i]) != ReceiptOf(x.log.effects[j])
                  && (x.log.effects[i].SyncEffect? && x.log.effects[j].SyncEffect? ==>
                        x.log.effects[i].version < x.log.effects[j].version))
            && DistinctIds(x.state.inbox)
  {
    EveryRunKeepsInv(ws, remotely, provider, n);
    var es := ws[n].store.memory.log.effects;
    forall i, j | 0 <= i < j < |es| && !es[i].DebitEffect? && !es[j].DebitEffect?
      ensures es[i].paymentId != es[j].paymentId && ReceiptOf(es[i]) != ReceiptOf(es[j])
      ensures es[i].SyncEffect? && es[j].SyncEffect? ==> es[i].version < es[j].version
    {
      CleanCountsOnce(es, i, j);
    }
  }

  /** The receipts of a position are injective. */
  lemma ReceiptsAreInjective(ws: seq<World>, remotely: bool, provider: string, n: nat, p: Id, q: Id)
    requires IsRun(ws, remotely, provider) && n < |ws| && ws[n].store.memory.state.position.Some?
    requires var r := ws[n].store.memory.state.position.value.receipts;
             p in r && q in r && r[p] == r[q]
    ensures p == q
  {
    EveryRunKeepsInv(ws, remotely, provider, n);
    ReplayInjective(ws[n].store.memory.log.effects, p, q);
  }

  lemma {:induction false} ReplayInjective(effects: seq<Effect>, p: Id, q: Id)
    requires Clean(effects)
    requires p in Replay(effects).receipts && q in Replay(effects).receipts
    requires Replay(effects).receipts[p] == Replay(effects).receipts[q]
    ensures p == q
  {
    if effects != [] {
      var n := |effects| - 1;
      var init := Replay(effects[..n]);
      VersionsBelow(effects[..n], p);
      VersionsBelow(effects[..n], q);
      if p in init.receipts && q in init.receipts && init.receipts[p] == init.receipts[q] {
        ReplayInjective(effects[..n], p, q);
      }
    }
  }

  lemma {:induction false} VersionsBelow(effects: seq<Effect>, p: Id)
    requires Clean(effects)
    ensures p in Replay(effects).receipts && Replay(effects).receipts[p].SyncReceipt? ==>
              Replay(effects).receipts[p].version <= Replay(effects).version
  {
    if effects != [] {
      VersionsBelow(effects[..|effects| - 1], p);
    }
  }

  /** The acknowledged target is never more than one unit above the largest target the client put into a trade. */
  lemma TargetWithinCommitted(ws: seq<World>, remotely: bool, provider: string, n: nat)
    requires IsRun(ws, remotely, provider) && n < |ws|
    ensures ws[n].store.memory.state.position.Some? ==>
              ws[n].store.memory.state.position.value.target <= ws[n].peak + 1
    ensures ws[n].peak > 0 ==> exists k, i: Intent, luck ::
              0 <= k < n && i.kind == Trade && i.target == ws[n].peak
              && Enabled(ws[k], Save(Propose(i), luck))
              && ws[k + 1] == After(ws[k], Save(Propose(i), luck), provider)
  {
    EveryRunKeepsInv(ws, remotely, provider, n);
    PeakWasCommitted(ws, remotely, provider, n);
  }

  lemma {:induction false} PeakWasCommitted(ws: seq<World>, remotely: bool, provider: string, n: nat)
    requires IsRun(ws, remotely, provider) && n < |ws|
    ensures ws[n].peak > 0 ==> exists k, i: Intent, luck ::
              0 <= k < n && i.kind == Trade && i.target == ws[n].peak
              && Enabled(ws[k], Save(Propose(i), luck))
              && ws[k + 1] == After(ws[k], Save(Propose(i), luck), provider)
    decreases n
  {
    if n > 0 {
      PeakWasCommitted(ws, remotely, provider, n - 1);
      assert Step(ws[n - 1], ws[n - 1 + 1], provider);
      var e :| Enabled(ws[n - 1], e) && ws[n] == After(ws[n - 1], e, provider);
      if ws[n].peak != ws[n - 1].peak {
        assert e == Save(Propose(e.change.intent), e.luck);
        assert ws[n - 1 + 1] == After(ws[n - 1], Save(Propose(e.change.intent), e.luck), provider);
      } else if ws[n].peak > 0 {
        var k, i: Intent, luck :|
          0 <= k < n - 1 && i.kind == Trade && i.target == ws[n - 1].peak
          && Enabled(ws[k], Save(Propose(i), luck))
          && ws[k + 1] == After(ws[k], Save(Propose(i), luck), provider);
      }
    }
  }
}
