/**
 * The close-record store of one device: the in-memory map, the version it
 * holds of the remote object, and the local database. A ghost trace records the
 * world of all devices; each operation extends it by steps of CloseRecordSync.
 */
module CloseRecordStore {
  import opened CloseRecord
  import opened CloseRecordSync

  /** The remote key-value server, shared by all devices. */
  class Server {
    var cell: Cell

    constructor ()
      ensures cell == Cell(0, map[])
    {
      cell := Cell(0, map[]);
    }
  }

  datatype PersistOutcome =
    | Saved         // the remote object now holds what was in memory
    | SavedLocally  // no server, or the remote write did not complete
    | LocalFailed   // the local database refused the write

  /**
   * What the outside world does during one save: whether the local database takes the write, whether
   * each request reaches the server, and whether its answer comes back.
   */
  datatype Luck = Luck(localOk: bool, reached: bool, answered: bool, fetched: bool,
                       reachedAgain: bool, answeredAgain: bool, localAgain: bool)
  {
    predicate LocalWorks() { localOk && localAgain }
    predicate AllGood() { localOk && reached && answered && fetched && reachedAgain && answeredAgain }
  }

  lemma MergeMapsAt(target: Records, source: Records)
    ensures var m := MergeMaps(target, source);
      && m.Keys == target.Keys + source.Keys
      && forall id | id in m :: m[id] ==
           if id in target && id in source then Merge(target[id], source[id])
           else if id in target then target[id] else source[id]
  {
    hide Merge;
  }

  /** Merge each record of `source` into `target`, one key at a time in any order. */
  method MergeMapInto(target: Records, source: Records) returns (merged: Records)
    ensures merged == MergeMaps(target, source)
  {
    hide *;
    MergeMapsAt(target, source);
    merged := target;
    var left := source.Keys;
    while left != {}
      invariant left <= source.Keys
      invariant forall id :: id in merged <==> id in target || (id in source && id !in left)
      invariant forall id | id in merged && id in left :: merged[id] == target[id]
      invariant forall id | id in merged && id !in left :: merged[id] == MergeMaps(target, source)[id]
      decreases left
    {
      var id :| id in left;
      var incoming := source[id];
      merged := merged[id := if id in merged then Merge(merged[id], incoming) else incoming];
      left := left - {id};
    }
  }

  class Store {
    var records: Records
    var version: nat
    var local: Records
    const server: Server?
    ghost const me: nat
    ghost const cfg: Config
    ghost var stage: Stage
    ghost var trace: seq<World>

    ghost predicate Consistent()
      reads this, server
    {
      && IsRun(trace, cfg)
      && (server == null ==> version == 0)
      && var w := trace[|trace| - 1];
      && me < |w.devices|
      && w.devices[me] == Device(records, version, local, stage)
      && (server != null ==> w.cell == server.cell)
    }

    ghost predicate Valid()
      reads this, server
    {
      Consistent() && stage == Idle
    }

    ghost function Last(): World
      requires trace != []
      reads this
    {
      trace[|trace| - 1]
    }

    /** A device among others that share an unused server. */
    constructor (server: Server?, ghost me: nat, ghost devices: nat, ghost cfg: Config)
      requires server != null ==> server.cell == Cell(0, map[])
      requires me < devices
      ensures Valid() && records == map[] && version == 0 && this.server == server && this.cfg == cfg
    {
      records, version, local := map[], 0, map[];
      this.server := server;
      this.me, this.cfg := me, cfg;
      stage := Idle;
      trace := [World(seq(devices, i => Device(map[], 0, map[], Idle)), Cell(0, map[]))];
    }

    /** Account for one step of this device in the trace. */
    ghost method Account(e: Event, nextStage: Stage)
      requires IsRun(trace, cfg) && me < |Last().devices|
      requires Enabled(Last().devices[me], Last().cell, e, cfg) && WellFormed(e)
      requires server == null ==> version == 0
      requires DeviceAfter(Last().devices[me], Last().cell, e) == Device(records, version, local, nextStage)
      requires server != null ==> server.cell == CellAfter(Last().devices[me], Last().cell, e)
      modifies `trace, `stage
      ensures Consistent() && stage == nextStage
      ensures |trace| == |old(trace)| + 1 && old(trace) <= trace
    {
      var w := Last();
      var w' := World(w.devices[me := DeviceAfter(w.devices[me], w.cell, e)], CellAfter(w.devices[me], w.cell, e));
      assert StepOf(w, w', me, e, cfg);
      trace := trace + [w'];
      stage := nextStage;
    }

    /** End an operation that did not complete. */
    ghost method GiveUp()
      requires Consistent() && (stage.Writing? || stage.Conflicted? || stage.Fetched? || stage.Rewriting?)
      modifies `trace, `stage
      ensures Valid() && old(trace) <= trace
    {
      hide IsRun, Inv, KnowsAll;
      Account(Fail, Idle);
    }

    /**
     * Waiting for a promise: other devices may write, and this one may be told new facts. Callers
     * learn only that the world moved by legal steps and that no fact left this device's memory.
     */
    method Await()
      requires Consistent()
      modifies this, server
      ensures Consistent() && old(trace) <= trace
      ensures version == old(version) && local == old(local) && stage == old(stage)
      ensures KnowsAll(records, old(records))
    {
      KnowsAllReflexive(records);
    }

    /** Create or merge at once in memory; saving is queued separately. */
    method UpsertCloseRecord(incoming: Record)
      requires Consistent() && Distinct(incoming.txs)
      requires cfg.resolvesWithCompletion ==> Paired(incoming)
      modifies this
      ensures Consistent() && old(trace) <= trace
      ensures records == UpsertInto(old(records), incoming)
      ensures version == old(version) && local == old(local) && stage == old(stage)
      ensures KnowsAll(records, old(records)) && Knows(records[incoming.channelId], incoming)
    {
      InvNow();
      UpsertKnows(records, incoming);
      records := records[incoming.channelId :=
                           if incoming.channelId in records then Merge(records[incoming.channelId], incoming)
                           else incoming];
      Account(Upsert(incoming), stage);
    }

    lemma InvNow()
      requires Consistent()
      ensures Inv(Last(), cfg) && DeviceInv(Last().devices[me], Last().cell)
    {
      EveryRunKeepsInv(trace, cfg, |trace| - 1);
    }

    /** Between operations, whoever holds the current version knows all of the remote object. */
    lemma VersionMeansKnowing()
      requires Valid() && Safe(cfg) && server != null && version == server.cell.version
      ensures KnowsAll(records, server.cell.value)
    {
      HoldingAVersionMeansKnowing(trace, cfg, |trace| - 1, me);
    }

    /**
     * Save locally, then remotely; on a version conflict fetch, merge and write once more.
     * On success the remote object knows every fact this device had at the call. Without a fault the only
     * way to fail is to lose the race a second time.
     */
    method PersistLocked(luck: Luck) returns (r: PersistOutcome)
      requires Valid() && (cfg.localReliable ==> luck.LocalWorks())
      modifies this, server
      ensures Valid() && old(trace) <= trace
      ensures KnowsAll(records, old(records))
      ensures r == Saved ==>
        && server != null
        && version == server.cell.version
        && KnowsAll(server.cell.value, old(records))
        && KnowsAll(records, server.cell.value)
      ensures r == LocalFailed <==> !luck.localOk
      ensures r == LocalFailed ==> records == old(records) && local == old(local) && trace == old(trace)
      ensures luck.localOk && server == null ==> r == SavedLocally && local == old(records)
      ensures r == SavedLocally && server != null && luck.AllGood() ==> version != server.cell.version
      ensures luck.localOk ==> KnowsAll(local, old(records))
    {
      hide KnowsAll, AllDistinct, MergeMaps, IsRun, Inv, DeviceInv, KnowsItsVersion;
      KnowsAllReflexive(records);
      var encoded := records;
      if !luck.localOk {
        return LocalFailed;
      }
      local := encoded;
      Account(StartPersist, Writing(encoded));
      if server == null {
        GiveUp();
        return SavedLocally;
      }
      r := FirstWrite(encoded, luck);
    }

    /** The first remote write, at the version this device holds. */
    method FirstWrite(encoded: Records, luck: Luck) returns (r: PersistOutcome)
      requires Consistent() && stage == Writing(encoded) && encoded == records == local && server != null
      requires cfg.localReliable ==> luck.LocalWorks()
      modifies this, server
      ensures Valid() && old(trace) <= trace
      ensures KnowsAll(records, encoded) && KnowsAll(local, encoded)
      ensures r == Saved ==>
        && version == server.cell.version
        && KnowsAll(server.cell.value, encoded)
        && KnowsAll(records, server.cell.value)
      ensures r != LocalFailed
      ensures r == SavedLocally && luck.AllGood() ==> version != server.cell.version
    {
      hide KnowsAll, AllDistinct, MergeMaps, IsRun, Inv, DeviceInv, KnowsItsVersion;
      KnowsAllReflexive(encoded);
      Await();
      if !luck.reached {
        GiveUp();
        return SavedLocally;
      }
      if version == server.cell.version {
        server.cell := Cell(version + 1, encoded);
        if !luck.answered {
          Account(PutLost, Idle);
          return SavedLocally;
        }
        version := version + 1;
        Account(Put, Idle);
        return Saved;
      }
      Account(Conflict, Conflicted);
      r := RewriteMerged(luck, encoded);
    }

    /** The conflict path: fetch the remote map, merge it in and write the result at its version. */
    method RewriteMerged(luck: Luck, ghost start: Records) returns (r: PersistOutcome)
      requires Consistent() && stage == Conflicted && server != null
      requires cfg.localReliable ==> luck.LocalWorks()
      requires KnowsAll(records, start) && KnowsAll(local, start)
      modifies this, server
      ensures Valid() && old(trace) <= trace
      ensures KnowsAll(records, start) && KnowsAll(local, start)
      ensures r == Saved ==>
        && version == server.cell.version
        && KnowsAll(server.cell.value, start)
        && KnowsAll(records, server.cell.value)
      ensures r != LocalFailed
      ensures r == SavedLocally && luck.AllGood() ==> version != server.cell.version
    {
      hide KnowsAll, AllDistinct, MergeMaps, IsRun, Inv, DeviceInv, KnowsItsVersion;
      Await();
      KnowsAllTransitive(records, old(records), start);
      if !luck.fetched {
        GiveUp();
        return SavedLocally;
      }
      var remote := server.cell;
      Account(AskRemote, Fetched(remote));
      ghost var before := records;
      Await();
      KnowsAllTransitive(records, before, start);
      var merged := TakeRemote(remote, start);
      r := WriteMerged(merged, luck, start);
    }

    /** Adopt the fetched version together with its facts. */
    method TakeRemote(remote: Cell, ghost start: Records) returns (merged: Records)
      requires Consistent() && stage == Fetched(remote) && server != null
      requires KnowsAll(records, start)
      modifies this
      ensures Consistent() && old(trace) <= trace
      ensures stage == Rewriting(merged) && merged == records && version == remote.version
      ensures records == if remote.version == 0 then old(records) else MergeMaps(old(records), remote.value)
      ensures KnowsAll(records, start) && local == old(local)
    {
      hide KnowsAll, AllDistinct, MergeMaps, IsRun, Inv, DeviceInv, KnowsItsVersion;
      InvNow();
      MergeMapsKnowsBoth(records, remote.value);
      ghost var before := records;
      version := remote.version;
      if remote.version != 0 {
        records := MergeMapInto(records, remote.value);
        KnowsAllTransitive(records, before, start);
      }
      merged := records;
      Account(MergeRemote, Rewriting(merged));
    }

    method WriteMerged(merged: Records, luck: Luck, ghost start: Records) returns (r: PersistOutcome)
      requires Consistent() && stage == Rewriting(merged) && merged == records && server != null
      requires cfg.localReliable ==> luck.LocalWorks()
      requires KnowsAll(merged, start) && KnowsAll(local, start)
      modifies this, server
      ensures Valid() && old(trace) <= trace
      ensures KnowsAll(records, start) && KnowsAll(local, start)
      ensures r == Saved ==>
        && version == server.cell.version
        && server.cell.value == merged
        && KnowsAll(server.cell.value, start)
        && KnowsAll(records, server.cell.value)
      ensures r != LocalFailed
      ensures r == SavedLocally && luck.AllGood() ==> version != server.cell.version
    {
      hide KnowsAll, AllDistinct, MergeMaps, IsRun, Inv, DeviceInv, KnowsItsVersion;
      Await();
      KnowsAllTransitive(records, merged, start);
      if !luck.reachedAgain {
        GiveUp();
        return SavedLocally;
      }
      r := PutAgain(merged, luck);
    }

    /** The second write has reached the server. */
    method PutAgain(merged: Records, luck: Luck) returns (r: PersistOutcome)
      requires Consistent() && stage == Rewriting(merged) && server != null
      requires cfg.localReliable ==> luck.LocalWorks()
      modifies this, server
      ensures Valid() && old(trace) <= trace && records == old(records)
      ensures local == old(local) || local == records
      ensures r == Saved || r == SavedLocally
      ensures r == Saved ==> version == server.cell.version && server.cell.value == merged && KnowsAll(records, merged)
      ensures r == SavedLocally && luck.answeredAgain ==> version != server.cell.version
    {
      hide KnowsAll, AllDistinct, MergeMaps, IsRun, Inv, KnowsItsVersion;
      InvNow();
      if version != server.cell.version {
        Account(Conflict, Idle);
        return SavedLocally;
      }
      server.cell := Cell(version + 1, merged);
      if !luck.answeredAgain {
        Account(ReputLost, Idle);
        return SavedLocally;
      }
      version := version + 1;
      if luck.localAgain {
        local := records;
      }
      Account(Reput(luck.localAgain), Idle);
      return Saved;
    }

    /** What the surroundings promise about one load. */
    ghost predicate Promised(loaded: bool, reached: bool, localOk: bool)
      reads this
    {
      && (cfg.localReliable ==> loaded && localOk)
      && (cfg.seedReliable ==> reached)
      && (!cfg.reloadInPage && loaded ==> version == 0)
    }

    /** The local half of a load: the records in memory are replaced, unless the database cannot be read. */
    method ReadLocal(loaded: bool)
      requires Valid() && (cfg.localReliable ==> loaded) && (!cfg.reloadInPage && loaded ==> version == 0)
      modifies this
      ensures Consistent() && stage == Seeding && old(trace) <= trace
      ensures records == if loaded then old(local) else old(records)
      ensures version == old(version) && local == old(local)
    {
      hide IsRun, Inv, KnowsAll;
      if loaded {
        records := local;
        Account(LoadLocal, Seeding);
      } else {
        Account(SkipLocal, Seeding);
      }
    }

    /**
     * Load the local records, then merge the remote ones in and take their version. A load in a page that already
     * holds a version keeps that version when the remote read fails, whatever the local copy knows.
     */
    method InitCloseRecords(loaded: bool, reached: bool, localOk: bool) returns (seeded: bool)
      requires Valid() && Promised(loaded, reached, localOk)
      modifies this, server
      ensures Valid() && old(trace) <= trace
      ensures KnowsAll(records, if loaded then old(local) else old(records))
      ensures seeded ==> server != null && reached && version > 0 && version >= old(version)
      ensures !seeded ==> version == old(version) && local == old(local)
      ensures server == null || !reached ==> !seeded
      ensures server == null ==> records == if loaded then old(local) else old(records)
    {
      hide KnowsAll, AllDistinct, MergeMaps, IsRun, Inv, DeviceInv, KnowsItsVersion;
      seeded := false;
      ReadLocal(loaded);
      ghost var start := records;
      KnowsAllReflexive(records);
      if server == null {
        Account(NoServer, Idle);
        return;
      }
      Await();
      if !reached {
        Account(Fail, Idle);
        return;
      }
      var remote := server.cell;
      Account(AskSeed, SeedReply(remote));
      ghost var before := records;
      Await();
      KnowsAllTransitive(records, before, start);
      seeded := SeedFrom(remote, localOk, start);
    }

    method SeedFrom(remote: Cell, localOk: bool, ghost start: Records) returns (seeded: bool)
      requires Consistent() && stage == SeedReply(remote) && server != null
      requires KnowsAll(records, start) && (cfg.localReliable ==> localOk)
      modifies this
      ensures Valid() && old(trace) <= trace
      ensures KnowsAll(records, start)
      ensures seeded == (remote.version > 0)
      ensures version == (if seeded then remote.version else old(version)) && version >= old(version)
      ensures records == if seeded then MergeMaps(old(records), remote.value) else old(records)
      ensures local == if seeded && localOk then records else old(local)
    {
      hide KnowsAll, AllDistinct, MergeMaps, IsRun, Inv, DeviceInv, KnowsItsVersion;
      InvNow();
      MergeMapsKnowsBoth(records, remote.value);
      ghost var before := records;
      seeded := remote.version != 0;
      if seeded {
        version := remote.version;
        records := MergeMapInto(records, remote.value);
        KnowsAllTransitive(records, before, start);
        if localOk {
          local := records;
        }
      }
      Account(Seed(localOk), Idle);
    }
  }
}
