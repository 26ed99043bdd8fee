/**
 * A sweep pass on the stored entries, with the module's flags: the nested loops that build the
 * batch, the writes they make on the way, and what each answer of the outside world leads to.
 */
module Sweep {
  import opened Results
  import opened SweepPlan

  datatype SweepTx = SweepTx(txid: string, attributions: seq<Attribution>)
  datatype SweepResult = SweepResult(swept: nat, skipped: nat, txs: seq<SweepTx>)
  datatype SweepError = CleanupFailed

  /** What the caller gets, and the two flags behind the pending banner. */
  datatype Outcome = Outcome(result: Result<SweepResult, SweepError>, failed: bool, shortfall: Option<int>)

  function OutcomeOf(entries: Stored, p: Plan, luck: Luck, failed: bool, shortfall: Option<int>): Outcome
  {
    if entries == map[] then Outcome(Ok(SweepResult(0, 0, [])), failed, shortfall)
    else if p.batch == [] then Outcome(Ok(SweepResult(0, p.skipped, [])), p.skipped > 0, None)
    else
      var kept := Ok(SweepResult(0, p.skipped + |p.batch|, []));
      match luck.answer
      case FeeUnknown | BroadcastFailed | SubsidyFailed => Outcome(kept, true, None)
      case SubsidyShort(sats) => Outcome(kept, true, Some(sats))
      case Broadcast(txid) => SpentOutcome(p, txid, luck, failed, shortfall)
      case SubsidisedBroadcast(txid) => SpentOutcome(p, txid, luck, failed, shortfall)
  }

  function SpentOutcome(p: Plan, txid: string, luck: Luck, failed: bool, shortfall: Option<int>): Outcome
  {
    if !luck.cleanupOk then Outcome(Err(CleanupFailed), failed, shortfall)
    else Outcome(Ok(SweepResult(|p.batch|, p.skipped, [SweepTx(txid, p.attributions)])), p.skipped > 0, None)
  }

  /**
   * The banner clears only when the pass left nothing behind: no descriptor of an undecodable
   * entry, and no batch that failed to go out.
   */
  lemma BannerClearsOnlyWhenDone(entries: Stored, p: Plan, luck: Luck, failed: bool, shortfall: Option<int>)
    requires entries != map[]
    ensures var o := OutcomeOf(entries, p, luck, failed, shortfall);
            && (o.result.Ok? ==> (!o.failed <==> p.skipped == 0 && (p.batch == [] || Swept(p, luck))))
            && (o.result.Ok? ==> o.result.value.swept + o.result.value.skipped == |p.batch| + p.skipped)
            && (o.result.Ok? ==> (o.result.value.txs != [] <==> Swept(p, luck)))
            && (o.result.Err? <==> Swept(p, luck) && !luck.cleanupOk)
            && (o.result.Err? ==> o.failed == failed && o.shortfall == shortfall)
            && (o.result.Ok? && p.batch != [] ==>
                  o.shortfall == if luck.answer.SubsidyShort? then Some(luck.answer.shortfall) else None)
            && (o.result.Ok? && p.batch == [] ==> o.shortfall == None)
            && (o.result.Ok? && Swept(p, luck) ==>
                  o.result.value == SweepResult(|p.batch|, p.skipped, [SweepTx(luck.answer.txid, p.attributions)]))
  {
  }

  /** Every attribution stands beside the key whose descriptors it describes. */
  lemma {:induction false} AttributionsFollowKeys(store: Stored, keys: seq<string>, look: Desc -> Verdict, i: nat)
    requires forall k | k in keys :: k in store
    requires i < |PlanPass(store, keys, look).keys|
    ensures var p := PlanPass(store, keys, look);
            && |p.attributions| == |p.keys|
            && p.keys[i] in store
            && p.attributions[i].channelId == EntryChannel(store[p.keys[i]])
            && (forall o | o in p.attributions[i].outpoints ::
                  store[p.keys[i]].Tracked? && o in store[p.keys[i]].outpoints)
            && (forall o | store[p.keys[i]].Tracked? && o in store[p.keys[i]].outpoints && o !in p.attributions[i].outpoints ::
                  exists d :: d in store[p.keys[i]].descs && look(d) == WalletOwned(Some(o.point)))
  {
    hide ScanEntry, FilterPoints;
    if keys != [] {
      var n := |keys| - 1;
      var q := PlanPass(store, keys[..n], look);
      var e := store[keys[n]];
      if i < |q.keys| {
        AttributionsFollowKeys(store, keys[..n], look, i);
      } else if e.Tracked? {
        FilterKeepsMembers(e.outpoints, ScanEntry(e.descs, q.seen, look).points);
        ScanAccounts(e.descs, q.seen, look);
      }
      AttributionsCount(store, keys, look);
    }
  }

  lemma {:induction false} AttributionsCount(store: Stored, keys: seq<string>, look: Desc -> Verdict)
    requires forall k | k in keys :: k in store
    ensures |PlanPass(store, keys, look).attributions| == |PlanPass(store, keys, look).keys|
  {
    if keys != [] {
      AttributionsCount(store, keys[..|keys| - 1], look);
    }
  }

  /** Filtering keeps exactly the points that were not dropped. */
  lemma {:induction false} FilterKeepsMembers(points: seq<StoredOutpoint>, dropped: set<Outpoint>)
    ensures forall o :: o in FilterPoints(points, dropped) <==> o in points && o.point !in dropped
  {
    if points != [] {
      var n := |points| - 1;
      FilterKeepsMembers(points[..n], dropped);
      assert points == points[..n] + [points[n]];
    }
  }

  /** The store while the loop runs: the rewrites of the entries seen so far that went through. */
  function Rewritten(entries: Stored, rewrites: Stored, putOk: string -> bool): Stored
  {
    entries + map k | k in rewrites && putOk(k) :: rewrites[k]
  }

  lemma RewriteStored(entries: Stored, rewrites: Stored, putOk: string -> bool, key: string, e: Entry)
    requires putOk(key)
    ensures Rewritten(entries, rewrites[key := e], putOk) == Rewritten(entries, rewrites, putOk)[key := e]
  {
  }

  lemma RewriteRefused(entries: Stored, rewrites: Stored, putOk: string -> bool, key: string, e: Entry)
    requires !putOk(key)
    ensures Rewritten(entries, rewrites[key := e], putOk) == Rewritten(entries, rewrites, putOk)
  {
    assert (map k | k in rewrites[key := e] && putOk(k) :: rewrites[key := e][k])
        == (map k | k in rewrites && putOk(k) :: rewrites[k]);
  }

  lemma ScanGrows(descs: seq<Desc>, j: nat, seen: set<Desc>, look: Desc -> Verdict)
    requires j < |descs|
    ensures ScanEntry(descs[..j + 1], seen, look) == ScanStep(ScanEntry(descs[..j], seen, look), descs[j], look)
  {
    assert descs[..j + 1][..j] == descs[..j];
  }

  /** Once an entry fails to decode, scanning the rest of it changes nothing. */
  lemma {:induction false} ScanStops(descs: seq<Desc>, j: nat, seen: set<Desc>, look: Desc -> Verdict)
    requires j <= |descs| && !ScanEntry(descs[..j], seen, look).valid
    ensures ScanEntry(descs, seen, look) == ScanEntry(descs[..j], seen, look)
    decreases |descs|
  {
    if j < |descs| {
      assert descs[..|descs| - 1][..j] == descs[..j];
      ScanStops(descs[..|descs| - 1], j, seen, look);
    } else {
      assert descs[..j] == descs;
    }
  }

  lemma PassGrows(store: Stored, keys: seq<string>, i: nat, look: Desc -> Verdict)
    requires forall k | k in keys :: k in store
    requires i < |keys|
    ensures PlanPass(store, keys[..i + 1], look)
         == PlanEntry(PlanPass(store, keys[..i], look), keys[i], store[keys[i]], look)
  {
    assert keys[..i + 1][..i] == keys[..i];
  }

  lemma {:induction false} RewritesAreKeys(store: Stored, keys: seq<string>, look: Desc -> Verdict)
    requires forall k | k in keys :: k in store
    ensures forall k | k in PlanPass(store, keys, look).rewrites :: k in keys
  {
    if keys != [] {
      RewritesAreKeys(store, keys[..|keys| - 1], look);
    }
  }

  /** One entry's loop over its descriptors, with the scan it stands for. */
  method ScanDescriptors(descs: seq<Desc>, seen0: set<Desc>, look: Desc -> Verdict) returns (s: Scan)
    ensures s == ScanEntry(descs, seen0, look)
  {
    var kept: seq<Desc>, seen, pruned: nat, points: set<Outpoint>, valid := [], seen0, 0, {}, true;
    var j := 0;
    while j < |descs|
      invariant 0 <= j <= |descs| && valid
      invariant Scan(kept, seen, pruned, points, valid) == ScanEntry(descs[..j], seen0, look)
    {
      var bytes := descs[j];
      ScanGrows(descs, j, seen0, look);
      if bytes in seen {
        pruned := pruned + 1;
      } else {
        match look(bytes) {
          case Undecodable =>
            valid := false;
            ScanStops(descs, j + 1, seen0, look);
            return Scan(kept, seen, pruned, points, valid);
          case WalletOwned(point) =>
            seen := seen + {bytes};
            if point.Some? {
              points := points + {point.value};
            }
            pruned := pruned + 1;
          case Sweepable =>
            seen := seen + {bytes};
            kept := kept + [bytes];
        }
      }
      j := j + 1;
    }
    assert descs[..j] == descs;
    s := Scan(kept, seen, pruned, points, valid);
  }

  class Sweeper {
    var store: Stored
    var sweepInProgress: bool
    var lastAttemptFailed: bool
    var shortfall: Option<int>

    constructor ()
      ensures store == map[] && !sweepInProgress && !lastAttemptFailed && shortfall == None
    {
      store, sweepInProgress, lastAttemptFailed, shortfall := map[], false, false, None;
    }

    /**
     * One pass. `keys` is the order in which the cursor visits the store; `look` and `luck` are
     * what LDK, the wallet, the network and the database answer.
     */
    method SweepSpendableOutputs(keys: seq<string>, look: Desc -> Verdict, luck: Luck)
      returns (r: Result<SweepResult, SweepError>)
      requires Enumerates(keys, store) && forall k | k in keys :: k in store
      modifies this
      ensures old(sweepInProgress) ==> r == Ok(SweepResult(0, 0, [])) && unchanged(this)
      ensures !old(sweepInProgress) ==>
                && !sweepInProgress
                && store == StoreAfter(old(store), PlanPass(old(store), keys, look), luck)
                && Outcome(r, lastAttemptFailed, shortfall)
                   == OutcomeOf(old(store), PlanPass(old(store), keys, look), luck,
                                old(lastAttemptFailed), old(shortfall))
    {
      if sweepInProgress {
        return Ok(SweepResult(0, 0, []));
      }
      hide *;
      sweepInProgress := true;
      if store == map[] {
        EmptyPass(store, keys, look, luck, lastAttemptFailed, shortfall);
        sweepInProgress := false;
        return Ok(SweepResult(0, 0, []));
      }
      ghost var entries := store;
      var batch, idbKeys, emptied, attributions, skipped := BuildBatch(keys, look, luck.putOk);
      ghost var p := PlanPass(entries, keys, look);
      StoreSteps(entries, p, luck);
      if emptied != [] && luck.deleteOk {
        store := store - (set k | k in emptied);
      }
      r := Spend(batch, idbKeys, attributions, skipped, luck, entries, p);
      sweepInProgress := false;
    }

    /** The outer loop over the entries, which also persists every entry it pruned. */
    method BuildBatch(keys: seq<string>, look: Desc -> Verdict, putOk: string -> bool)
      returns (batch: seq<Desc>, idbKeys: seq<string>, emptied: seq<string>,
               attributions: seq<Attribution>, skipped: nat)
      requires Enumerates(keys, store) && forall k | k in keys :: k in store
      modifies this`store
      ensures var p := PlanPass(old(store), keys, look);
              && batch == p.batch && idbKeys == p.keys && emptied == p.emptied
              && attributions == p.attributions && skipped == p.skipped
              && store == Rewritten(old(store), p.rewrites, putOk)
    {
      hide ScanEntry, FilterPoints, PlanPass, Enumerates;
      var entries := store;
      ghost var rewrites: Stored := map[];
      var seen: set<Desc> := {};
      batch, idbKeys, emptied, attributions, skipped := [], [], [], [], 0;
      assert PlanPass(entries, keys[..0], look) == Plan([], {}, [], [], [], map[], 0) by { EmptyPrefix(entries, keys, look); }
      var i := 0;
      while i < |keys|
        invariant 0 <= i <= |keys|
        invariant Plan(batch, seen, idbKeys, emptied, attributions, rewrites, skipped)
               == PlanPass(entries, keys[..i], look)
        invariant store == Rewritten(entries, rewrites, putOk)
      {
        var key := keys[i];
        var entry := entries[key];
        PassGrows(entries, keys, i, look);
        KeyNotYet(entries, keys, i, look);
        var s := ScanDescriptors(entry.descs, seen, look);
        seen := s.seen;
        if !s.valid {
          skipped := skipped + |entry.descs|;
        } else if s.kept == [] {
          emptied := emptied + [key];
        } else {
          var points := EntryPoints(entry, s.points);
          var channel := EntryChannel(entry);
          if s.pruned > 0 {
            var pruned := Tracked(s.kept, channel, points);
            if putOk(key) {
              RewriteStored(entries, rewrites, putOk, key, pruned);
              store := store[key := pruned];
            } else {
              RewriteRefused(entries, rewrites, putOk, key, pruned);
            }
            rewrites := rewrites[key := pruned];
          }
          batch := batch + s.kept;
          idbKeys := idbKeys + [key];
          attributions := attributions + [Attribution(channel, points)];
        }
        i := i + 1;
      }
      assert keys[..i] == keys;
    }

    /** What happens to a finished batch: nothing to spend, a failure, or a broadcast. */
    method Spend(batch: seq<Desc>, idbKeys: seq<string>, attributions: seq<Attribution>, skipped: nat,
                 luck: Luck, ghost entries: Stored, ghost p: Plan)
      returns (r: Result<SweepResult, SweepError>)
      requires entries != map[]
      requires batch == p.batch && idbKeys == p.keys && attributions == p.attributions && skipped == p.skipped
      modifies this`store, this`lastAttemptFailed, this`shortfall
      ensures store == if Swept(p, luck) && luck.cleanupOk then old(store) - (set k | k in p.keys) else old(store)
      ensures Outcome(r, lastAttemptFailed, shortfall)
           == OutcomeOf(entries, p, luck, old(lastAttemptFailed), old(shortfall))
    {
      if batch == [] {
        lastAttemptFailed, shortfall := skipped > 0, None;
        r := Ok(SweepResult(0, skipped, []));
      } else {
        match luck.answer {
          case FeeUnknown | BroadcastFailed | SubsidyFailed =>
            lastAttemptFailed, shortfall := true, None;
            r := Ok(SweepResult(0, skipped + |batch|, []));
          case SubsidyShort(sats) =>
            lastAttemptFailed, shortfall := true, Some(sats);
            r := Ok(SweepResult(0, skipped + |batch|, []));
          case Broadcast(txid) => r := Finish(txid, batch, idbKeys, attributions, skipped, luck.cleanupOk);
          case SubsidisedBroadcast(txid) =>
            r := Finish(txid, batch, idbKeys, attributions, skipped, luck.cleanupOk);
        }
      }
    }

    /** After a broadcast: drop the swept entries, then settle the flags. */
    method Finish(txid: string, batch: seq<Desc>, idbKeys: seq<string>, attributions: seq<Attribution>,
                  skipped: nat, cleanupOk: bool)
      returns (r: Result<SweepResult, SweepError>)
      modifies this`store, this`lastAttemptFailed, this`shortfall
      ensures store == if cleanupOk then old(store) - (set k | k in idbKeys) else old(store)
      ensures cleanupOk ==>
                && r == Ok(SweepResult(|batch|, skipped, [SweepTx(txid, attributions)]))
                && lastAttemptFailed == (skipped > 0) && shortfall == None
      ensures !cleanupOk ==>
                && r == Err(CleanupFailed)
                && lastAttemptFailed == old(lastAttemptFailed) && shortfall == old(shortfall)
    {
      if !cleanupOk {
        return Err(CleanupFailed);
      }
      store := store - (set k | k in idbKeys);
      lastAttemptFailed, shortfall := skipped > 0, None;
      r := Ok(SweepResult(|batch|, skipped, [SweepTx(txid, attributions)]));
    }
  }

  lemma EmptyPrefix(entries: Stored, keys: seq<string>, look: Desc -> Verdict)
    requires forall k | k in keys :: k in entries
    ensures PlanPass(entries, keys[..0], look) == Plan([], {}, [], [], [], map[], 0)
  {
  }

  /** A key of the cursor has not been rewritten before its own turn. */
  lemma KeyNotYet(store: Stored, keys: seq<string>, i: nat, look: Desc -> Verdict)
    requires Enumerates(keys, store) && forall k | k in keys :: k in store
    requires i < |keys|
    ensures keys[i] !in PlanPass(store, keys[..i], look).rewrites
  {
    RewritesAreKeys(store, keys[..i], look);
  }

  lemma FirstIsMember(keys: seq<string>)
    ensures keys == [] || exists k :: k in keys
  {
    assert keys != [] ==> keys[0] in keys;
  }

  lemma EmptyPass(store: Stored, keys: seq<string>, look: Desc -> Verdict, luck: Luck,
                  failed: bool, shortfall: Option<int>)
    requires store == map[] && Enumerates(keys, store) && forall k | k in keys :: k in store
    ensures StoreAfter(store, PlanPass(store, keys, look), luck) == store
    ensures OutcomeOf(store, PlanPass(store, keys, look), luck, failed, shortfall)
         == Outcome(Ok(SweepResult(0, 0, [])), failed, shortfall)
  {
    FirstIsMember(keys);
  }

  lemma StoreSteps(entries: Stored, p: Plan, luck: Luck)
    ensures var rewritten := Rewritten(entries, p.rewrites, luck.putOk);
            var cleared := if p.emptied != [] && luck.deleteOk then rewritten - (set k | k in p.emptied)
                           else rewritten;
            StoreAfter(entries, p, luck)
            == if Swept(p, luck) && luck.cleanupOk then cleared - (set k | k in p.keys) else cleared
  {
    assert p.emptied == [] ==>
        Rewritten(entries, p.rewrites, luck.putOk) - (set k | k in p.emptied)
        == Rewritten(entries, p.rewrites, luck.putOk);
  }
}
