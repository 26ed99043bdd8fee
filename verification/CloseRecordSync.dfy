/**
 * Close records on several devices that share one versioned cell. A write
 * names the version it replaces and is refused when that is not the current
 * one; the refused device fetches, merges and writes again.
 */
module CloseRecordSync {
  import opened Results
  import opened CloseRecord

  type Records = map<string, Record>

  /** The remote object; version 0 means that it does not exist. */
  datatype Cell = Cell(version: nat, value: Records)

  /** Where a device's serialised chain of store operations is. */
  datatype Stage =
    | Idle
    | Seeding                  // local records loaded, remote asked for
    | SeedReply(cell: Cell)
    | Writing(blob: Records)   // local copy saved, first write on its way
    | Conflicted               // refused, remote asked for
    | Fetched(cell: Cell)
    | Rewriting(blob: Records) // merged write on its way

  datatype Device = Device(records: Records, version: nat, local: Records, stage: Stage)

  datatype World = World(devices: seq<Device>, cell: Cell)

  datatype Event =
    | Reload                 // a fresh page: module state starts over, the local database stays
    | LoadLocal
    | SkipLocal              // the local database could not be read
    | AskSeed                // the server's answer to the first read leaves
    | Seed(saved: bool)      // ... and is merged in
    | Upsert(record: Record)
    | StartPersist
    | Put
    | PutLost                // written, but the answer never came
    | Fail                   // any failed request or local write that ends the operation
    | NoServer               // there is no server to seed from
    | Conflict
    | AskRemote
    | MergeRemote
    | Reput(saved: bool)
    | ReputLost

  // ----- merging maps -----

  function MergeMaps(target: Records, source: Records): Records
  {
    map id | id in target.Keys + source.Keys ::
      if id in target && id in source then Merge(target[id], source[id])
      else if id in target then target[id] else source[id]
  }

  function UpsertInto(records: Records, r: Record): Records
  {
    records[r.channelId := if r.channelId in records then Merge(records[r.channelId], r) else r]
  }

  ghost predicate AllDistinct(m: Records) { forall id | id in m :: Distinct(m[id].txs) }

  /** Every record of `b` is in `a`, with all its facts. */
  ghost predicate KnowsAll(a: Records, b: Records) { forall id | id in b :: id in a && Knows(a[id], b[id]) }

  lemma KnowsAllReflexive(a: Records)
    ensures KnowsAll(a, a)
  {
    forall id | id in a ensures Knows(a[id], a[id]) {
      KnowsReflexive(a[id]);
    }
  }

  lemma KnowsAllTransitive(a: Records, b: Records, c: Records)
    requires KnowsAll(a, b) && KnowsAll(b, c)
    ensures KnowsAll(a, c)
  {
    forall id | id in c ensures Knows(a[id], c[id]) {
      KnowsTransitive(a[id], b[id], c[id]);
    }
  }

  lemma MergeMapsKnowsBoth(target: Records, source: Records)
    requires AllDistinct(target) && AllDistinct(source)
    ensures var m := MergeMaps(target, source);
            KnowsAll(m, target) && KnowsAll(m, source) && AllDistinct(m)
  {
    var m := MergeMaps(target, source);
    forall id | id in m
      ensures id in target ==> Knows(m[id], target[id])
      ensures id in source ==> Knows(m[id], source[id])
      ensures Distinct(m[id].txs)
    {
      if id in target && id in source {
        MergeKnowsBoth(target[id], source[id]);
        MergedDistinct(target[id], source[id]);
      } else if id in target {
        KnowsReflexive(target[id]);
      } else {
        KnowsReflexive(source[id]);
      }
    }
  }

  lemma UpsertKnows(records: Records, r: Record)
    requires AllDistinct(records) && Distinct(r.txs)
    ensures KnowsAll(UpsertInto(records, r), records)
    ensures Knows(UpsertInto(records, r)[r.channelId], r)
    ensures AllDistinct(UpsertInto(records, r))
  {
    KnowsAllReflexive(records);
    KnowsReflexive(r);
    if r.channelId in records {
      MergeKnowsBoth(records[r.channelId], r);
      MergedDistinct(records[r.channelId], r);
    }
  }

  // ----- the steps -----

  /**
   * What the surroundings promise: whether a page may load the local copy again while it holds a version, and
   * whether the remote read of a load, or every local read and write, always succeeds, and whether every
   * recorded completion carries its resolution.
   */
  datatype Config = Config(reloadInPage: bool, seedReliable: bool, localReliable: bool, resolvesWithCompletion: bool)

  /** Whether loading leaves what the local database holds equal to the merged records. */
  predicate SeedSaves(d: Device, saved: bool)
    requires d.stage.SeedReply?
  {
    saved || MergeMaps(d.records, d.stage.cell.value) == d.records
  }

  predicate Enabled(d: Device, cell: Cell, e: Event, cfg: Config)
  {
    match e
    case Reload => true
    case LoadLocal => d.stage == Idle && (cfg.reloadInPage || d.version == 0)
    case SkipLocal => d.stage == Idle && !cfg.localReliable
    case AskSeed => d.stage == Seeding
    case Seed(saved) => d.stage.SeedReply? && (cfg.localReliable ==> SeedSaves(d, saved))
    case Upsert(r) => cfg.resolvesWithCompletion ==> Paired(r)
    case StartPersist => d.stage == Idle
    case Put => d.stage.Writing? && d.version == cell.version
    case PutLost => d.stage.Writing? && d.version == cell.version
    case Fail => cfg.seedReliable ==> !Loading(d)
    case NoServer => d.stage == Seeding && d.version == 0
    case Conflict => (d.stage.Writing? || d.stage.Rewriting?) && d.version != cell.version
    case AskRemote => d.stage == Conflicted
    case MergeRemote => d.stage.Fetched?
    case Reput(saved) => d.stage.Rewriting? && d.version == cell.version && (cfg.localReliable ==> saved)
    case ReputLost => d.stage.Rewriting? && d.version == cell.version
  }

  /** Between reading the local copy and merging the remote one. */
  predicate Loading(d: Device) { d.stage.Seeding? || d.stage.SeedReply? }

  /** The part of Enabled that gives each event its meaning. */
  predicate Fits(d: Device, e: Event)
  {
    match e
    case Seed(_) => d.stage.SeedReply?
    case Put => d.stage.Writing?
    case PutLost => d.stage.Writing?
    case MergeRemote => d.stage.Fetched?
    case Reput(_) => d.stage.Rewriting?
    case ReputLost => d.stage.Rewriting?
    case _ => true
  }

  /** The facts an event brings have one entry per txid. */
  ghost predicate WellFormed(e: Event) { e.Upsert? ==> Distinct(e.record.txs) }

  function DeviceAfter(d: Device, cell: Cell, e: Event): Device
    requires Fits(d, e)
  {
    match e
    case Reload => Device(map[], 0, d.local, Idle)
    case LoadLocal => d.(records := d.local, stage := Seeding)
    case SkipLocal => d.(stage := Seeding)
    case AskSeed => d.(stage := SeedReply(cell))
    case Seed(saved) =>
      if d.stage.cell.version == 0 then d.(stage := Idle)
      else
        var merged := MergeMaps(d.records, d.stage.cell.value);
        Device(merged, d.stage.cell.version, if saved then merged else d.local, Idle)
    case Upsert(r) => d.(records := UpsertInto(d.records, r))
    case StartPersist => d.(local := d.records, stage := Writing(d.records))
    case Put => d.(version := d.version + 1, stage := Idle)
    case PutLost => d.(stage := Idle)
    case Fail => d.(stage := Idle)
    case NoServer => d.(stage := Idle)
    case Conflict => d.(stage := if d.stage.Writing? then Conflicted else Idle)
    case AskRemote => d.(stage := Fetched(cell))
    case MergeRemote =>
      var merged := if d.stage.cell.version == 0 then d.records else MergeMaps(d.records, d.stage.cell.value);
      d.(records := merged, version := d.stage.cell.version, stage := Rewriting(merged))
    case Reput(saved) => d.(version := d.version + 1, local := if saved then d.records else d.local, stage := Idle)
    case ReputLost => d.(stage := Idle)
  }

  function CellAfter(d: Device, cell: Cell, e: Event): Cell
    requires Fits(d, e)
  {
    match e
    case Put => Cell(cell.version + 1, d.stage.blob)
    case PutLost => Cell(cell.version + 1, d.stage.blob)
    case Reput(_) => Cell(cell.version + 1, d.stage.blob)
    case ReputLost => Cell(cell.version + 1, d.stage.blob)
    case _ => cell
  }

  ghost predicate StepOf(w: World, w': World, who: nat, e: Event, cfg: Config)
  {
    && who < |w.devices|
    && Enabled(w.devices[who], w.cell, e, cfg) && WellFormed(e)
    && w' == World(w.devices[who := DeviceAfter(w.devices[who], w.cell, e)], CellAfter(w.devices[who], w.cell, e))
  }

  ghost predicate Next(w: World, w': World, cfg: Config) { exists who: nat, e :: StepOf(w, w', who, e, cfg) }

  /** Devices that were never used, over an absent remote object. */
  ghost predicate IsInit(w: World)
  {
    && w.cell == Cell(0, map[])
    && forall d | d in w.devices :: d == Device(map[], 0, map[], Idle)
  }

  ghost predicate IsRun(trace: seq<World>, cfg: Config)
  {
    && trace != []
    && IsInit(trace[0])
    && forall i | 0 <= i < |trace| - 1 :: Next(trace[i], trace[i + 1], cfg)
  }

  // ----- what every step keeps -----

  /** What holds in every configuration. */
  ghost predicate DeviceInv(d: Device, cell: Cell)
  {
    && AllDistinct(d.records) && AllDistinct(d.local)
    && d.version <= cell.version
    && (d.stage.Writing? || d.stage.Rewriting? ==> AllDistinct(d.stage.blob) && KnowsAll(d.records, d.stage.blob))
    && (d.stage.SeedReply? || d.stage.Fetched? ==>
          && AllDistinct(d.stage.cell.value)
          && d.version <= d.stage.cell.version <= cell.version
          && (d.stage.cell.version == cell.version ==> d.stage.cell.value == cell.value))
  }

  /** No page loads again while it holds a version, or no such load can fail to merge the remote copy. */
  predicate Safe(cfg: Config) { !cfg.reloadInPage || cfg.seedReliable }

  /** Whoever holds the current version knows the remote object, unless it is just loading again. */
  ghost predicate KnowsItsVersion(d: Device, cell: Cell, cfg: Config)
  {
    d.version == cell.version ==>
      && ((cfg.reloadInPage && Loading(d)) || KnowsAll(d.records, cell.value))
      && (d.stage.Writing? || d.stage.Rewriting? ==> KnowsAll(d.stage.blob, cell.value))
  }

  ghost predicate Inv(w: World, cfg: Config)
  {
    && AllDistinct(w.cell.value)
    && (w.cell.version == 0 ==> w.cell.value == map[])
    && (forall d | d in w.devices :: DeviceInv(d, w.cell))
    && (Safe(cfg) ==> forall d | d in w.devices :: KnowsItsVersion(d, w.cell, cfg))
  }

  /** The device that moves keeps its invariant. */
  lemma MoverKeepsInv(d: Device, cell: Cell, e: Event, cfg: Config)
    requires Enabled(d, cell, e, cfg) && WellFormed(e)
    requires AllDistinct(cell.value) && DeviceInv(d, cell)
    ensures DeviceInv(DeviceAfter(d, cell, e), CellAfter(d, cell, e))
    ensures AllDistinct(CellAfter(d, cell, e).value)
    ensures e != Reload && e != LoadLocal ==> KnowsAll(DeviceAfter(d, cell, e).records, d.records)
  {
    KnowsAllReflexive(d.records);
    match e {
      case Upsert(r) =>
        UpsertKnows(d.records, r);
        if d.stage.Writing? || d.stage.Rewriting? {
          KnowsAllTransitive(UpsertInto(d.records, r), d.records, d.stage.blob);
        }
      case Seed(_) => MergeMapsKnowsBoth(d.records, d.stage.cell.value);
      case MergeRemote =>
        MergeMapsKnowsBoth(d.records, d.stage.cell.value);
        KnowsAllReflexive(MergeMaps(d.records, d.stage.cell.value));
      case _ =>
    }
  }

  /** In a safe configuration it keeps knowing its version, and what it writes knows what was there. */
  lemma MoverKeepsKnowing(d: Device, cell: Cell, e: Event, cfg: Config)
    requires Enabled(d, cell, e, cfg) && WellFormed(e) && Safe(cfg)
    requires AllDistinct(cell.value) && (cell.version == 0 ==> cell.value == map[])
    requires DeviceInv(d, cell) && KnowsItsVersion(d, cell, cfg)
    ensures KnowsItsVersion(DeviceAfter(d, cell, e), CellAfter(d, cell, e), cfg)
    ensures KnowsAll(CellAfter(d, cell, e).value, cell.value)
  {
    KnowsAllReflexive(cell.value);
    match e {
      case Upsert(r) =>
        UpsertKnows(d.records, r);
        if KnowsAll(d.records, cell.value) {
          KnowsAllTransitive(UpsertInto(d.records, r), d.records, cell.value);
        }
      case Seed(_) => MergeMapsKnowsBoth(d.records, d.stage.cell.value);
      case MergeRemote => MergeMapsKnowsBoth(d.records, d.stage.cell.value);
      case _ =>
    }
  }

  lemma StepKeepsInv(w: World, w': World, who: nat, e: Event, cfg: Config)
    requires Inv(w, cfg) && StepOf(w, w', who, e, cfg)
    ensures Inv(w', cfg)
    ensures Safe(cfg) ==> KnowsAll(w'.cell.value, w.cell.value)
    ensures e != Reload && e != LoadLocal ==> KnowsAll(w'.devices[who].records, w.devices[who].records)
  {
    var mover := w.devices[who];
    assert mover in w.devices;
    MoverKeepsInv(mover, w.cell, e, cfg);
    if Safe(cfg) {
      MoverKeepsKnowing(mover, w.cell, e, cfg);
    }
    forall d | d in w'.devices
      ensures DeviceInv(d, w'.cell) && (Safe(cfg) ==> KnowsItsVersion(d, w'.cell, cfg))
    {
      if d != w'.devices[who] {
        assert d in w.devices;
      }
    }
  }

  lemma NextKeepsInv(w: World, w': World, cfg: Config)
    requires Inv(w, cfg) && Next(w, w', cfg)
    ensures Inv(w', cfg)
    ensures Safe(cfg) ==> KnowsAll(w'.cell.value, w.cell.value)
  {
    var who: nat, e :| StepOf(w, w', who, e, cfg);
    StepKeepsInv(w, w', who, e, cfg);
  }

  lemma InitHasInv(w: World, cfg: Config)
    requires IsInit(w)
    ensures Inv(w, cfg)
  {
  }

  lemma {:induction false} EveryRunKeepsInv(trace: seq<World>, cfg: Config, n: nat)
    requires IsRun(trace, cfg) && n < |trace|
    ensures Inv(trace[n], cfg)
    decreases n
  {
    hide Inv, Next;
    if n == 0 {
      InitHasInv(trace[0], cfg);
    } else {
      EveryRunKeepsInv(trace, cfg, n - 1);
      assert Next(trace[n - 1], trace[n - 1 + 1], cfg);
      NextKeepsInv(trace[n - 1], trace[n], cfg);
    }
  }

  /** With any number of devices racing, no later remote object lacks a fact an earlier one had. */
  lemma {:induction false} NoWriteLosesAFact(trace: seq<World>, cfg: Config, i: nat, j: nat)
    requires IsRun(trace, cfg) && Safe(cfg) && i <= j < |trace|
    ensures KnowsAll(trace[j].cell.value, trace[i].cell.value)
    decreases j - i
  {
    hide KnowsAll, Next, Inv, IsInit;
    if i == j {
      KnowsAllReflexive(trace[j].cell.value);
    } else {
      NoWriteLosesAFact(trace, cfg, i, j - 1);
      EveryRunKeepsInv(trace, cfg, j - 1);
      assert Next(trace[j - 1], trace[j - 1 + 1], cfg);
      NextKeepsInv(trace[j - 1], trace[j], cfg);
      KnowsAllTransitive(trace[j].cell.value, trace[j - 1].cell.value, trace[i].cell.value);
    }
  }

  /**
   * In every reachable state a device that holds the current version knows all that the remote object holds. Only a
   * page that is just loading again, and has not yet merged the remote copy, is exempt.
   */
  lemma HoldingAVersionMeansKnowing(trace: seq<World>, cfg: Config, n: nat, who: nat)
    requires IsRun(trace, cfg) && Safe(cfg) && n < |trace| && who < |trace[n].devices|
    requires trace[n].devices[who].version == trace[n].cell.version
    requires cfg.reloadInPage ==> !Loading(trace[n].devices[who])
    ensures KnowsAll(trace[n].devices[who].records, trace[n].cell.value)
  {
    EveryRunKeepsInv(trace, cfg, n);
    assert KnowsItsVersion(trace[n].devices[who], trace[n].cell, cfg);
  }

  // ----- a run that loses a fact -----

  ghost function Last(trace: seq<World>): World
    requires trace != []
  {
    trace[|trace| - 1]
  }

  /** One more step of one device, to a state that is written out. */
  lemma Extend(trace: seq<World>, cfg: Config, who: nat, e: Event, d: Device, cell: Cell) returns (longer: seq<World>)
    requires IsRun(trace, cfg) && who < |Last(trace).devices|
    requires Enabled(Last(trace).devices[who], Last(trace).cell, e, cfg) && WellFormed(e) && Fits(Last(trace).devices[who], e)
    requires d == DeviceAfter(Last(trace).devices[who], Last(trace).cell, e)
    requires cell == CellAfter(Last(trace).devices[who], Last(trace).cell, e)
    ensures IsRun(longer, cfg) && trace <= longer && |longer| == |trace| + 1
    ensures Last(longer) == World(Last(trace).devices[who := d], cell)
  {
    var w := Last(trace);
    var w' := World(w.devices[who := d], cell);
    assert StepOf(w, w', who, e, cfg);
    longer := trace + [w'];
    hide Enabled, DeviceAfter, CellAfter, WellFormed, Fits, StepOf;
    forall i | 0 <= i < |longer| - 1 ensures Next(longer[i], longer[i + 1], cfg) {
      if i < |trace| - 1 {
        assert Next(trace[i], trace[i + 1], cfg);
      }
    }
  }

  /** A device loads for the first time, when nothing is stored anywhere. */
  lemma FirstLoad(trace: seq<World>, cfg: Config, who: nat) returns (longer: seq<World>)
    requires IsRun(trace, cfg) && who < |Last(trace).devices|
    requires Last(trace).cell == Cell(0, map[]) && Last(trace).devices[who] == Device(map[], 0, map[], Idle)
    ensures IsRun(longer, cfg) && trace <= longer && Last(longer) == Last(trace)
  {
    hide IsRun;
    var empty, d := Cell(0, map[]), Device(map[], 0, map[], Idle);
    var merged: Records := MergeMaps(map[], map[]);
    assert merged == map[];
    var t1 := Extend(trace, cfg, who, LoadLocal, d.(stage := Seeding), empty);
    var t2 := Extend(t1, cfg, who, AskSeed, d.(stage := SeedReply(empty)), empty);
    longer := Extend(t2, cfg, who, Seed(true), d, empty);
  }

  const THEIRS := "a"
  const OURS := "bb"
  const MORE := "ccc"

  /** A close that was verified as complete. */
  function Settled(channelId: string): Record
  {
    Blank(channelId).(completedAt := Some(1), resolution := Some(Verified))
  }

  function One(channelId: string): Records { map[channelId := Settled(channelId)] }

  /** Another device writes the first record. */
  lemma TheyWrite(trace: seq<World>, cfg: Config) returns (longer: seq<World>)
    requires IsRun(trace, cfg)
    requires Last(trace) == World([Device(map[], 0, map[], Idle), Device(map[], 0, map[], Idle)], Cell(0, map[]))
    ensures IsRun(longer, cfg) && trace <= longer
    ensures Last(longer) == World([Device(One(THEIRS), 1, One(THEIRS), Idle), Device(map[], 0, map[], Idle)],
                                  Cell(1, One(THEIRS)))
  {
    hide IsRun, Merge;
    var empty, r := Cell(0, map[]), One(THEIRS);
    var t1 := Extend(trace, cfg, 0, Upsert(Settled(THEIRS)), Device(r, 0, map[], Idle), empty);
    var t2 := Extend(t1, cfg, 0, StartPersist, Device(r, 0, r, Writing(r)), empty);
    longer := Extend(t2, cfg, 0, Put, Device(r, 1, r, Idle), Cell(1, r));
  }

  /** This device loses the race for its own first write. */
  lemma WeConflict(trace: seq<World>, cfg: Config, other: Device) returns (longer: seq<World>)
    requires IsRun(trace, cfg)
    requires Last(trace) == World([other, Device(map[], 0, map[], Idle)], Cell(1, One(THEIRS)))
    ensures IsRun(longer, cfg) && trace <= longer
    ensures Last(longer) == World([other, Device(One(OURS), 0, One(OURS), Conflicted)], Cell(1, One(THEIRS)))
  {
    hide IsRun, Merge, MergeMaps;
    var cell, r := Cell(1, One(THEIRS)), One(OURS);
    var t1 := Extend(trace, cfg, 1, Upsert(Settled(OURS)), Device(r, 0, map[], Idle), cell);
    var t2 := Extend(t1, cfg, 1, StartPersist, Device(r, 0, r, Writing(r)), cell);
    longer := Extend(t2, cfg, 1, Conflict, Device(r, 0, r, Conflicted), cell);
  }

  /** It fetches and merges, and then its rewrite does not get through. */
  lemma WeMergeButCannotRewrite(trace: seq<World>, cfg: Config, other: Device, r: Records, cell: Cell)
    returns (longer: seq<World>)
    requires IsRun(trace, cfg) && cell.version != 0
    requires Last(trace) == World([other, Device(r, 0, r, Conflicted)], cell)
    ensures IsRun(longer, cfg) && trace <= longer
    ensures Last(longer) == World([other, Device(MergeMaps(r, cell.value), cell.version, r, Idle)], cell)
  {
    hide IsRun, MergeMaps;
    var both := MergeMaps(r, cell.value);
    var t1 := Extend(trace, cfg, 1, AskRemote, Device(r, 0, r, Fetched(cell)), cell);
    var t2 := Extend(t1, cfg, 1, MergeRemote, Device(both, cell.version, r, Rewriting(both)), cell);
    longer := Extend(t2, cfg, 1, Fail, Device(both, cell.version, r, Idle), cell);
  }

  /** It loads again in the same page, cannot read the remote copy, and writes at the version it still holds. */
  lemma WeLoadAgainAndWrite(trace: seq<World>, cfg: Config, other: Device, both: Records) returns (longer: seq<World>)
    requires IsRun(trace, cfg) && cfg.reloadInPage && !cfg.seedReliable
    requires Last(trace) == World([other, Device(both, 1, One(OURS), Idle)], Cell(1, One(THEIRS)))
    ensures IsRun(longer, cfg) && trace <= longer
    ensures Last(longer).cell.value == One(OURS)[MORE := Settled(MORE)]
  {
    hide IsRun, Merge;
    var cell, r, more := Cell(1, One(THEIRS)), One(OURS), One(OURS)[MORE := Settled(MORE)];
    var t1 := Extend(trace, cfg, 1, LoadLocal, Device(r, 1, r, Seeding), cell);
    var t2 := Extend(t1, cfg, 1, Fail, Device(r, 1, r, Idle), cell);
    var t3 := Extend(t2, cfg, 1, Upsert(Settled(MORE)), Device(more, 1, r, Idle), cell);
    var t4 := Extend(t3, cfg, 1, StartPersist, Device(more, 1, more, Writing(more)), cell);
    longer := Extend(t4, cfg, 1, Put, Device(more, 2, more, Idle), Cell(2, more));
  }

  /**
   * A whole run from unused devices in which a write erases another device's verified record. No local read or
   * write fails in it: a rewrite after a conflict and the remote read of a second load do.
   */
  lemma ReloadingWithinAPageCanLose(cfg: Config) returns (trace: seq<World>, i: nat)
    requires !Safe(cfg)
    ensures IsRun(trace, cfg) && i < |trace|
    ensures var before, after := trace[i].cell.value, Last(trace).cell.value;
            !KnowsAll(after, before) && before == One(THEIRS) && THEIRS !in after
  {
    hide MergeMaps, Next;
    var unused := Device(map[], 0, map[], Idle);
    var start := World([unused, unused], Cell(0, map[]));
    var t0 := FirstLoad([start], cfg, 0);
    var t1 := FirstLoad(t0, cfg, 1);
    var t2 := TheyWrite(t1, cfg);
    i := |t2| - 1;
    var them := Device(One(THEIRS), 1, One(THEIRS), Idle);
    var t3 := WeConflict(t2, cfg, them);
    var t4 := WeMergeButCannotRewrite(t3, cfg, them, One(OURS), Cell(1, One(THEIRS)));
    trace := WeLoadAgainAndWrite(t4, cfg, them, MergeMaps(One(OURS), One(THEIRS)));
    assert t2 <= t3 <= t4 <= trace;
    assert trace[i] == Last(t2);
    assert THEIRS in trace[i].cell.value && THEIRS !in Last(trace).cell.value;
  }

  /**
   * Exactly when no write of any device ever loses a fact of the remote object: no page loads again while it holds
   * a version, or the remote read of a load always succeeds. Reliable local reads and writes do not help.
   */
  lemma NothingLostIff(cfg: Config)
    ensures (forall trace: seq<World>, i, j | IsRun(trace, cfg) && 0 <= i <= j < |trace| ::
               KnowsAll(trace[j].cell.value, trace[i].cell.value))
            <==> !cfg.reloadInPage || cfg.seedReliable
  {
    if Safe(cfg) {
      forall trace: seq<World>, i, j | IsRun(trace, cfg) && 0 <= i <= j < |trace|
        ensures KnowsAll(trace[j].cell.value, trace[i].cell.value)
      {
        NoWriteLosesAFact(trace, cfg, i, j);
      }
    } else {
      var trace, i := ReloadingWithinAPageCanLose(cfg);
      var j := |trace| - 1;
      assert 0 <= i <= j < |trace| && !KnowsAll(trace[j].cell.value, trace[i].cell.value);
    }
  }
}
