/**
 * What one sweep pass makes of the stored entries: the batch to spend, the
 * entries it comes from, the entries left with nothing to sweep, and the
 * entries to rewrite without the descriptors that were pruned.
 */
module SweepPlan {
  import opened Results

  type Desc = seq<int>
  datatype Outpoint = Outpoint(txid: string, vout: nat)
  datatype StoredOutpoint = StoredOutpoint(point: Outpoint, valueSats: string)

  /** A persisted entry, in the old shape or with its attribution. */
  datatype Entry =
    | Legacy(descs: seq<Desc>)
    | Tracked(descs: seq<Desc>, channelId: Option<string>, outpoints: seq<StoredOutpoint>)

  type Stored = map<string, Entry>

  /** What decoding a descriptor and asking the wallet about it gives. */
  datatype Verdict = Undecodable | WalletOwned(point: Option<Outpoint>) | Sweepable

  datatype Attribution = Attribution(channelId: Option<string>, outpoints: seq<StoredOutpoint>)

  /** The inner loop's outcome on one entry. */
  datatype Scan = Scan(kept: seq<Desc>, seen: set<Desc>, pruned: nat, points: set<Outpoint>, valid: bool)

  function ScanStep(s: Scan, d: Desc, look: Desc -> Verdict): Scan
  {
    if !s.valid then s
    else if d in s.seen then s.(pruned := s.pruned + 1)
    else match look(d)
      case Undecodable => s.(valid := false)
      case WalletOwned(point) =>
        s.(seen := s.seen + {d}, pruned := s.pruned + 1,
           points := s.points + if point.Some? then {point.value} else {})
      case Sweepable => s.(seen := s.seen + {d}, kept := s.kept + [d])
  }

  function ScanEntry(descs: seq<Desc>, seen: set<Desc>, look: Desc -> Verdict): Scan
  {
    if descs == [] then Scan([], seen, 0, {}, true)
    else ScanStep(ScanEntry(descs[..|descs| - 1], seen, look), descs[|descs| - 1], look)
  }

  datatype Plan = Plan(batch: seq<Desc>, seen: set<Desc>, keys: seq<string>, emptied: seq<string>,
                       attributions: seq<Attribution>, rewrites: Stored, skipped: nat)

  function FilterPoints(points: seq<StoredOutpoint>, dropped: set<Outpoint>): seq<StoredOutpoint>
  {
    if points == [] then []
    else FilterPoints(points[..|points| - 1], dropped)
         + if points[|points| - 1].point in dropped then [] else [points[|points| - 1]]
  }

  function EntryPoints(e: Entry, dropped: set<Outpoint>): seq<StoredOutpoint>
  {
    if e.Legacy? then [] else FilterPoints(e.outpoints, dropped)
  }

  function EntryChannel(e: Entry): Option<string> { if e.Legacy? then None else e.channelId }

  function PlanEntry(p: Plan, key: string, e: Entry, look: Desc -> Verdict): Plan
  {
    var s := ScanEntry(e.descs, p.seen, look);
    if !s.valid then p.(seen := s.seen, skipped := p.skipped + |e.descs|)
    else if s.kept == [] then p.(seen := s.seen, emptied := p.emptied + [key])
    else
      var points, channel := EntryPoints(e, s.points), EntryChannel(e);
      Plan(p.batch + s.kept, s.seen, p.keys + [key], p.emptied,
           p.attributions + [Attribution(channel, points)],
           if s.pruned > 0 then p.rewrites[key := Tracked(s.kept, channel, points)] else p.rewrites,
           p.skipped)
  }

  function PlanPass(store: Stored, keys: seq<string>, look: Desc -> Verdict): Plan
    requires forall k | k in keys :: k in store
  {
    if keys == [] then Plan([], {}, [], [], [], map[], 0)
    else
      var last := keys[|keys| - 1];
      PlanEntry(PlanPass(store, keys[..|keys| - 1], look), last, store[last], look)
  }

  // ----- what the plan accounts for -----

  ghost predicate NoRepeats<T>(s: seq<T>) { forall i, j | 0 <= i < j < |s| :: s[i] != s[j] }

  ghost predicate ScanInv(descs: seq<Desc>, seen: set<Desc>, look: Desc -> Verdict, s: Scan)
  {
    && seen <= s.seen
    && NoRepeats(s.kept)
    && (forall d | d in s.kept :: d in descs && d in s.seen && d !in seen)
    && (forall d | d in s.seen && d !in seen :: d in descs && (d in s.kept || look(d).WalletOwned?))
    && (s.valid ==> forall d | d in descs :: d in s.seen)
    && (s.valid && s.pruned == 0 ==> s.kept == descs)
    && ScanJudges(descs, seen, look, s)
  }

  /**
   * What the answers about the descriptors have to do with it: only sweepable ones are kept, only an undecodable one makes the
   * entry invalid, and the outpoints collected are those of the wallet-owned ones that were not seen before.
   */
  ghost predicate ScanJudges(descs: seq<Desc>, seen: set<Desc>, look: Desc -> Verdict, s: Scan)
  {
    && (forall d | d in s.kept :: look(d).Sweepable?)
    && (forall d | d in s.seen && d !in seen :: !look(d).Undecodable?)
    && (!s.valid ==> exists d :: d in descs && d !in seen && look(d).Undecodable?)
    && (forall x :: x in s.points <==> exists d :: d in s.seen && d !in seen && look(d) == WalletOwned(Some(x)))
  }

  lemma ScanStepJudges(descs: seq<Desc>, seen: set<Desc>, look: Desc -> Verdict, s: Scan, d: Desc)
    requires ScanJudges(descs, seen, look, s) && seen <= s.seen
    ensures ScanJudges(descs + [d], seen, look, ScanStep(s, d, look))
  {
    var t := ScanStep(s, d, look);
    if !t.valid {
      if s.valid {
        assert d in descs + [d];
      } else {
        var u :| u in descs && u !in seen && look(u).Undecodable?;
        assert u in descs + [d];
      }
    }
    forall x ensures x in t.points <==> exists u :: u in t.seen && u !in seen && look(u) == WalletOwned(Some(x)) {
      if u :| u in s.seen && u !in seen && look(u) == WalletOwned(Some(x)) {
        assert u in t.seen;
      }
    }
  }

  lemma ScanStepAccounts(descs: seq<Desc>, seen: set<Desc>, look: Desc -> Verdict, s: Scan, d: Desc)
    requires ScanInv(descs, seen, look, s)
    ensures ScanInv(descs + [d], seen, look, ScanStep(s, d, look))
  {
    hide ScanJudges;
    ScanStepJudges(descs, seen, look, s, d);
    if s.valid && d !in s.seen && look(d) == Sweepable {
      JoinNoRepeats(s.kept, [d]);
    }
  }

  lemma {:induction false} ScanAccounts(descs: seq<Desc>, seen: set<Desc>, look: Desc -> Verdict)
    ensures ScanInv(descs, seen, look, ScanEntry(descs, seen, look))
  {
    hide ScanInv;
    if descs == [] {
      assert ScanInv([], seen, look, Scan([], seen, 0, {}, true)) by { ScanNothing(seen, look); }
    } else {
      var n := |descs| - 1;
      ScanAccounts(descs[..n], seen, look);
      ScanStepAccounts(descs[..n], seen, look, ScanEntry(descs[..n], seen, look), descs[n]);
      assert descs == descs[..n] + [descs[n]];
    }
  }

  lemma ScanNothing(seen: set<Desc>, look: Desc -> Verdict)
    ensures ScanInv([], seen, look, Scan([], seen, 0, {}, true))
  {
  }

  /** An undecodable entry that the pass leaves alone still holds the descriptor. */
  ghost predicate StuckIn(store: Stored, keys: seq<string>, p: Plan, d: Desc)
    requires forall k | k in keys :: k in store
  {
    exists k :: k in keys && k !in p.keys && k !in p.emptied && d in store[k].descs
  }

  /** The entry a key holds once its rewrite, if any, is stored. */
  function EntryAfter(store: Stored, p: Plan, k: string): Entry
    requires k in store
  {
    if k in p.rewrites then p.rewrites[k] else store[k]
  }

  /** A batch key holds the descriptor, before and after the rewrite. */
  ghost predicate HeldFor(store: Stored, p: Plan, d: Desc)
    requires forall k | k in p.keys :: k in store
  {
    exists k :: k in p.keys && d in store[k].descs && d in EntryAfter(store, p, k).descs
  }

  ghost predicate PlanInv(store: Stored, keys: seq<string>, look: Desc -> Verdict, p: Plan)
    requires forall k | k in keys :: k in store
  {
    && (forall k | k in p.keys || k in p.emptied || k in p.rewrites :: k in keys)
    && (forall k | k in p.rewrites :: k in p.keys)
    && (forall k | k in p.keys :: k !in p.emptied)
    && NoRepeats(p.batch)
    && (forall d | d in p.batch :: d in p.seen && HeldFor(store, p, d))
    && (forall d | d in p.seen :: d in p.batch || look(d).WalletOwned? || StuckIn(store, keys, p, d))
    && (forall k, d | (k in p.keys || k in p.emptied) && d in store[k].descs :: d in p.seen)
    && PlanJudges(store, keys, look, p)
  }

  /** Every descriptor of the entry decodes. */
  ghost predicate Decodes(e: Entry, look: Desc -> Verdict) { forall d | d in e.descs :: !look(d).Undecodable? }

  /**
   * Only sweepable descriptors are in the batch, an entry takes part exactly when all its descriptors decode, and a
   * rewritten entry keeps its channel and only sweepable descriptors of its own.
   */
  ghost predicate PlanJudges(store: Stored, keys: seq<string>, look: Desc -> Verdict, p: Plan)
    requires forall k | k in keys :: k in store
  {
    && (forall d | d in p.batch :: look(d).Sweepable?)
    && (forall d | d in p.seen :: !look(d).Undecodable?)
    && (forall k | k in keys :: (k in p.keys || k in p.emptied) <==> Decodes(store[k], look))
    && (forall k | k in p.rewrites :: k in keys && IsPruned(p.rewrites[k], store[k], look))
    && KeysSweep(store, keys, look, p)
  }

  /** Each entry of the batch, once its rewrite is stored, holds what is to be swept and nothing else. */
  ghost predicate KeysSweep(store: Stored, keys: seq<string>, look: Desc -> Verdict, p: Plan)
    requires forall k | k in keys :: k in store
  {
    forall k | k in p.keys :: k in keys && OnlySweepable(EntryAfter(store, p, k), look)
  }

  /** Nothing in the entry but descriptors to sweep, and at least one. */
  ghost predicate OnlySweepable(e: Entry, look: Desc -> Verdict)
  {
    e.descs != [] && forall d | d in e.descs :: look(d).Sweepable?
  }

  ghost predicate IsPruned(after: Entry, before: Entry, look: Desc -> Verdict)
  {
    && after.Tracked? && after.channelId == EntryChannel(before)
    && forall d | d in after.descs :: d in before.descs && look(d).Sweepable?
  }

  lemma PlanEntryKeepsInv(store: Stored, keys: seq<string>, look: Desc -> Verdict, p: Plan, key: string)
    requires forall k | k in keys + [key] :: k in store
    requires key !in keys
    requires PlanInv(store, keys, look, p)
    ensures PlanInv(store, keys + [key], look, PlanEntry(p, key, store[key], look))
  {
    hide ScanEntry, FilterPoints, PlanJudges, ScanJudges;
    var e := store[key];
    var s := ScanEntry(e.descs, p.seen, look);
    var q := PlanEntry(p, key, e, look);
    ScanAccounts(e.descs, p.seen, look);
    PlanEntryJudges(store, keys, look, p, key);
    SeenAccounted(store, keys, look, p, key, s, q);
    if s.valid && s.kept != [] {
      BatchHeld(store, keys, look, p, key, s, q);
      JoinNoRepeats(p.batch, s.kept);
    } else {
      forall d | d in q.batch ensures HeldFor(store, q, d) {
        var k :| k in p.keys && d in store[k].descs && d in EntryAfter(store, p, k).descs;
        assert k in q.keys && EntryAfter(store, q, k) == EntryAfter(store, p, k);
      }
    }
  }

  lemma PlanEntryJudges(store: Stored, keys: seq<string>, look: Desc -> Verdict, p: Plan, key: string)
    requires forall k | k in keys + [key] :: k in store
    requires PlanJudges(store, keys, look, p) && key !in keys
    requires forall k | k in p.keys || k in p.emptied :: k in keys
    ensures PlanJudges(store, keys + [key], look, PlanEntry(p, key, store[key], look))
  {
    hide ScanEntry, FilterPoints, KeysSweep;
    var e := store[key];
    var s := ScanEntry(e.descs, p.seen, look);
    ScanAccounts(e.descs, p.seen, look);
    KeysStaySwept(store, keys, look, p, key);
    assert s.valid <==> Decodes(e, look);
    assert forall d | d in s.kept :: d in e.descs;
  }

  lemma KeysStaySwept(store: Stored, keys: seq<string>, look: Desc -> Verdict, p: Plan, key: string)
    requires forall k | k in keys + [key] :: k in store
    requires KeysSweep(store, keys, look, p) && key !in keys
    requires forall k | k in p.rewrites :: k in keys
    ensures KeysSweep(store, keys + [key], look, PlanEntry(p, key, store[key], look))
  {
    hide ScanEntry, FilterPoints;
    var e := store[key];
    var q := PlanEntry(p, key, e, look);
    ScanAccounts(e.descs, p.seen, look);
    assert forall k | k in p.keys :: k in keys && EntryAfter(store, q, k) == EntryAfter(store, p, k);
  }

  /** Each descriptor of the longer batch sits in an entry that stays until it is broadcast. */
  lemma BatchHeld(store: Stored, keys: seq<string>, look: Desc -> Verdict, p: Plan, key: string, s: Scan, q: Plan)
    requires forall k | k in keys + [key] :: k in store
    requires key !in keys && PlanInv(store, keys, look, p)
    requires ScanInv(store[key].descs, p.seen, look, s) && s.valid
    requires q.keys == p.keys + [key] && q.batch == p.batch + s.kept
    requires q.rewrites == p.rewrites || (q.rewrites.Keys == p.rewrites.Keys + {key} && q.rewrites[key].descs == s.kept
                                          && forall k | k in p.rewrites :: q.rewrites[k] == p.rewrites[k])
    requires q.rewrites == p.rewrites ==> s.pruned == 0
    ensures forall d | d in q.batch :: HeldFor(store, q, d)
  {
    forall d | d in q.batch ensures HeldFor(store, q, d) {
      if d in p.batch {
        var k :| k in p.keys && d in store[k].descs && d in EntryAfter(store, p, k).descs;
        assert k in q.keys && EntryAfter(store, q, k) == EntryAfter(store, p, k);
      } else {
        assert d in s.kept && key in q.keys && d in EntryAfter(store, q, key).descs;
      }
    }
  }

  /** Whatever was seen is in the batch, wallet-owned, or in an entry left alone. */
  lemma SeenAccounted(store: Stored, keys: seq<string>, look: Desc -> Verdict, p: Plan, key: string, s: Scan, q: Plan)
    requires forall k | k in keys + [key] :: k in store
    requires key !in keys && PlanInv(store, keys, look, p)
    requires ScanInv(store[key].descs, p.seen, look, s)
    requires q == PlanEntry(p, key, store[key], look) && s == ScanEntry(store[key].descs, p.seen, look)
    ensures forall d | d in q.seen :: d in q.batch || look(d).WalletOwned? || StuckIn(store, keys + [key], q, d)
  {
    hide ScanEntry, FilterPoints;
    forall d | d in q.seen
      ensures d in q.batch || look(d).WalletOwned? || StuckIn(store, keys + [key], q, d)
    {
      if d in p.seen {
        if d !in p.batch && !look(d).WalletOwned? {
          var k :| k in keys && k !in p.keys && k !in p.emptied && d in store[k].descs;
          assert k in keys + [key] && k !in q.keys && k !in q.emptied;
        }
      } else if !s.valid {
        assert key in keys + [key] && key !in q.keys && key !in q.emptied;
      }
    }
  }

  lemma JoinNoRepeats(a: seq<Desc>, b: seq<Desc>)
    requires NoRepeats(a) && NoRepeats(b) && forall d | d in b :: d !in a
    ensures NoRepeats(a + b)
  {
    forall i, j | 0 <= i < j < |a + b| ensures (a + b)[i] != (a + b)[j] {
      if i < |a| <= j {
        assert b[j - |a|] in b && a[i] in a;
      }
    }
  }

  lemma {:induction false} PlanPassInv(store: Stored, keys: seq<string>, look: Desc -> Verdict)
    requires forall k | k in keys :: k in store
    requires NoRepeats(keys)
    ensures PlanInv(store, keys, look, PlanPass(store, keys, look))
  {
    if keys != [] {
      var n := |keys| - 1;
      PlanPassInv(store, keys[..n], look);
      assert keys[..n] + [keys[n]] == keys;
      PlanEntryKeepsInv(store, keys[..n], look, PlanPass(store, keys[..n], look), keys[n]);
    }
  }

  // ----- one pass on the store -----

  /** How the outside world answers during a pass. */
  datatype Answer =
    | FeeUnknown
    | Broadcast(txid: string)
    | BroadcastFailed
    | SubsidisedBroadcast(txid: string)
    | SubsidyShort(shortfall: int)
    | SubsidyFailed

  datatype Luck = Luck(putOk: string -> bool, deleteOk: bool, answer: Answer, cleanupOk: bool)

  predicate Swept(p: Plan, luck: Luck) { p.batch != [] && (luck.answer.Broadcast? || luck.answer.SubsidisedBroadcast?) }

  /** The store after a pass: rewrites that succeeded, then emptied entries, then broadcast ones. */
  function StoreAfter(store: Stored, p: Plan, luck: Luck): Stored
  {
    var rewritten := store + map k | k in p.rewrites && luck.putOk(k) :: p.rewrites[k];
    var cleared := if luck.deleteOk then rewritten - (set k | k in p.emptied) else rewritten;
    if Swept(p, luck) && luck.cleanupOk then cleared - (set k | k in p.keys) else cleared
  }

  ghost predicate Holds(store: Stored, d: Desc) { exists k :: k in store && d in store[k].descs }

  /** The keys of a store in the order its cursor visits them. */
  ghost predicate Enumerates(keys: seq<string>, store: Stored)
  {
    NoRepeats(keys) && (set k | k in keys) == store.Keys
  }

  /** An entry that is neither emptied nor spent is still stored, with or without its rewrite. */
  lemma EntryStays(store: Stored, p: Plan, luck: Luck, k: string, d: Desc)
    requires k in store && k !in p.emptied && (k in p.keys ==> !Swept(p, luck))
    requires d in store[k].descs && d in EntryAfter(store, p, k).descs
    ensures Holds(StoreAfter(store, p, luck), d)
  {
    var after := StoreAfter(store, p, luck);
    assert k in after && d in after[k].descs;
  }

  /** A pass loses no descriptor that it did not broadcast and the wallet does not own. */
  lemma PassConserves(store: Stored, keys: seq<string>, look: Desc -> Verdict, luck: Luck, d: Desc)
    requires Enumerates(keys, store) && Holds(store, d)
    ensures forall k | k in keys :: k in store
    ensures var p := PlanPass(store, keys, look);
            || Holds(StoreAfter(store, p, luck), d)
            || (Swept(p, luck) && d in p.batch)
            || look(d).WalletOwned?
  {
    hide PlanPass, StoreAfter;
    assert forall k :: k in keys <==> k in store by {
      assert forall k :: k in keys <==> k in (set x | x in keys);
    }
    PlanPassInv(store, keys, look);
    var p := PlanPass(store, keys, look);
    var k :| k in store && d in store[k].descs;
    if k in p.keys || k in p.emptied {
      if d in p.batch {
        var h :| h in p.keys && d in store[h].descs && d in EntryAfter(store, p, h).descs;
        if !Swept(p, luck) {
          EntryStays(store, p, luck, h, d);
        }
      } else if !look(d).WalletOwned? {
        var h :| h in keys && h !in p.keys && h !in p.emptied && d in store[h].descs;
        EntryStays(store, p, luck, h, d);
      }
    } else {
      EntryStays(store, p, luck, k, d);
    }
  }

  /**
   * What a pass leaves: every entry with an undecodable descriptor, untouched; of the others nothing once the batch was
   * broadcast and both deletions worked. What stays of them holds only descriptors to sweep once it was written. Whatever it rewrites keeps its channel and sweepable descriptors of its own.
   */
  lemma PassClears(store: Stored, keys: seq<string>, look: Desc -> Verdict, luck: Luck, k: string)
    requires Enumerates(keys, store)
    ensures forall x | x in keys :: x in store
    ensures var p := PlanPass(store, keys, look);
            var after := StoreAfter(store, p, luck);
            && (k in after ==> k in store)
            && (k in store && !Decodes(store[k], look) ==> k in after && after[k] == store[k])
            && (k in store && Decodes(store[k], look) && Swept(p, luck) && luck.deleteOk && luck.cleanupOk ==> k !in after)
            && (k in store && k !in after ==> Decodes(store[k], look))
            && (k in after && after[k] != store[k] ==> luck.putOk(k) && IsPruned(after[k], store[k], look))
            && (k in after && Decodes(store[k], look) && luck.putOk(k) && luck.deleteOk ==> OnlySweepable(after[k], look))
  {
    hide PlanPass, HeldFor, StuckIn, OnlySweepable, IsPruned, Decodes;
    assert forall x :: x in keys <==> x in store by {
      assert forall x :: x in keys <==> x in (set y | y in keys);
    }
    PlanPassInv(store, keys, look);
  }

  /** How many descriptors the entries hold that have an undecodable one among them. */
  ghost function Stuck(store: Stored, keys: seq<string>, look: Desc -> Verdict): nat
    requires forall k | k in keys :: k in store
  {
    if keys == [] then 0
    else
      var last := store[keys[|keys| - 1]];
      Stuck(store, keys[..|keys| - 1], look) + if Decodes(last, look) then 0 else |last.descs|
  }

  /** The number of skipped descriptors that a pass reports. */
  lemma {:induction false} SkippedAreStuck(store: Stored, keys: seq<string>, look: Desc -> Verdict)
    requires forall k | k in keys :: k in store
    requires NoRepeats(keys)
    ensures PlanPass(store, keys, look).skipped == Stuck(store, keys, look)
  {
    hide ScanEntry, FilterPoints, Decodes;
    if keys != [] {
      var n := |keys| - 1;
      SkippedAreStuck(store, keys[..n], look);
      PlanPassInv(store, keys[..n], look);
      ValidIffDecodes(store[keys[n]], PlanPass(store, keys[..n], look).seen, look);
    }
  }

  lemma ValidIffDecodes(e: Entry, seen: set<Desc>, look: Desc -> Verdict)
    requires forall d | d in seen :: !look(d).Undecodable?
    ensures ScanEntry(e.descs, seen, look).valid <==> Decodes(e, look)
  {
    hide ScanEntry;
    ScanAccounts(e.descs, seen, look);
  }

  // ----- many passes -----

  datatype Event =
    | Arrive(key: string, entry: Entry)
    | Pass(keys: seq<string>, look: Desc -> Verdict, luck: Luck)

  ghost predicate Step(store: Stored, after: Stored, e: Event)
  {
    match e
    case Arrive(key, entry) => key !in store && after == store[key := entry]
    case Pass(keys, look, luck) =>
      && Enumerates(keys, store)
      && (forall k | k in keys :: k in store)
      && after == StoreAfter(store, PlanPass(store, keys, look), luck)
  }

  ghost predicate IsHistory(stores: seq<Stored>, events: seq<Event>)
  {
    |stores| == |events| + 1 && forall i | 0 <= i < |events| :: Step(stores[i], stores[i + 1], events[i])
  }

  /** The pass broadcast the descriptor, or found that the wallet already owns it. */
  ghost predicate Resolves(store: Stored, e: Event, d: Desc)
  {
    && e.Pass?
    && (forall k | k in e.keys :: k in store)
    && var p := PlanPass(store, e.keys, e.look);
       (Swept(p, e.luck) && d in p.batch) || e.look(d).WalletOwned?
  }

  /** Over any history, a stored descriptor is still stored unless some pass resolved it. */
  lemma {:induction false} NothingIsLost(stores: seq<Stored>, events: seq<Event>, i: nat, j: nat, d: Desc)
    requires IsHistory(stores, events) && i <= j < |stores|
    requires Holds(stores[i], d)
    ensures Holds(stores[j], d) || exists n :: i <= n < j && Resolves(stores[n], events[n], d)
    decreases j - i
  {
    if i < j {
      NothingIsLost(stores, events, i, j - 1, d);
      if Holds(stores[j - 1], d) {
        assert Step(stores[j - 1], stores[j - 1 + 1], events[j - 1]);
        StepConserves(stores[j - 1], stores[j], events[j - 1], d);
      }
    }
  }

  lemma StepConserves(store: Stored, after: Stored, e: Event, d: Desc)
    requires Step(store, after, e) && Holds(store, d)
    ensures Holds(after, d) || Resolves(store, e, d)
  {
    match e {
      case Arrive(key, entry) =>
        var k :| k in store && d in store[k].descs;
        assert k in after && d in after[k].descs;
      case Pass(keys, look, luck) => PassConserves(store, keys, look, luck, d);
    }
  }
}
