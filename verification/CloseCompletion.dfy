/**
 * Completed closes over the runs of CloseRecordSync: exactly when a record that is shown as complete stays so,
 * in the remote object and in the memory of a device.
 */
module CloseCompletion {
  import opened Results
  import opened CloseRecord
  import opened CloseRecordSync

  ghost predicate AllPaired(m: Records) { forall id | id in m :: Paired(m[id]) }

  /** Every record that a device holds, has stored, or is about to write or to merge. */
  ghost predicate DevicePaired(d: Device)
  {
    && AllPaired(d.records) && AllPaired(d.local)
    && (d.stage.Writing? || d.stage.Rewriting? ==> AllPaired(d.stage.blob))
    && (d.stage.SeedReply? || d.stage.Fetched? ==> AllPaired(d.stage.cell.value))
  }

  ghost predicate WorldPaired(w: World)
  {
    AllPaired(w.cell.value) && forall d | d in w.devices :: DevicePaired(d)
  }

  /** What is shown as complete stays there and stays complete, at every height. */
  ghost predicate StaysComplete(before: Records, after: Records)
  {
    forall id, height | id in before && DeriveStatus(before[id], height) == Complete ::
      id in after && DeriveStatus(after[id], height) == Complete
  }

  lemma MergePaired(a: Record, b: Record)
    requires Paired(a) && Paired(b)
    ensures Paired(Merge(a, b))
  {
  }

  lemma MapsPaired(a: Records, b: Records)
    requires AllPaired(a) && AllPaired(b)
    ensures AllPaired(MergeMaps(a, b))
  {
    hide Merge, Paired;
    forall id | id in MergeMaps(a, b) ensures Paired(MergeMaps(a, b)[id]) {
      if id in a && id in b {
        MergePaired(a[id], b[id]);
      }
    }
  }

  lemma UpsertPaired(records: Records, r: Record)
    requires AllPaired(records) && Paired(r)
    ensures AllPaired(UpsertInto(records, r))
  {
    if r.channelId in records {
      MergePaired(records[r.channelId], r);
    }
    hide Merge, Paired;
  }

  lemma MoverStaysPaired(d: Device, cell: Cell, e: Event, cfg: Config)
    requires Enabled(d, cell, e, cfg) && cfg.resolvesWithCompletion
    requires DevicePaired(d) && AllPaired(cell.value)
    ensures DevicePaired(DeviceAfter(d, cell, e)) && AllPaired(CellAfter(d, cell, e).value)
  {
    var none: Records := map[];
    assert AllPaired(none);
    hide AllPaired, MergeMaps, UpsertInto, Paired;
    match e {
      case Upsert(r) => UpsertPaired(d.records, r);
      case Seed(_) => MapsPaired(d.records, d.stage.cell.value);
      case MergeRemote => MapsPaired(d.records, d.stage.cell.value);
      case _ =>
    }
  }

  lemma StepStaysPaired(w: World, w': World, cfg: Config)
    requires Next(w, w', cfg) && cfg.resolvesWithCompletion && WorldPaired(w)
    ensures WorldPaired(w')
  {
    var who: nat, e :| StepOf(w, w', who, e, cfg);
    assert w.devices[who] in w.devices;
    MoverStaysPaired(w.devices[who], w.cell, e, cfg);
    forall d | d in w'.devices ensures DevicePaired(d) {
      assert d != w'.devices[who] ==> d in w.devices;
    }
  }

  /** When every recorded completion carries its resolution, so does every record of every device and of the server. */
  lemma {:induction false} EveryRunStaysPaired(trace: seq<World>, cfg: Config, n: nat)
    requires IsRun(trace, cfg) && cfg.resolvesWithCompletion && n < |trace|
    ensures WorldPaired(trace[n])
    decreases n
  {
    hide Next;
    if n > 0 {
      EveryRunStaysPaired(trace, cfg, n - 1);
      assert Next(trace[n - 1], trace[n - 1 + 1], cfg);
      StepStaysPaired(trace[n - 1], trace[n], cfg);
    }
  }

  /** Whoever knows all the facts of a paired record shows it as complete when the record does. */
  lemma KnowingShowsComplete(a: Record, b: Record, height: Option<int>)
    requires Knows(a, b) && Paired(b) && DeriveStatus(b, height) == Complete
    ensures DeriveStatus(a, height) == Complete
  {
    hide KnowsTxs;
    match b.resolution.value {
      case Verified => assert a.resolution == Some(Verified);
      case Unverified =>
    }
  }

  lemma KnowingStaysComplete(before: Records, after: Records)
    requires AllPaired(before) && KnowsAll(after, before)
    ensures StaysComplete(before, after)
  {
    hide Knows, DeriveStatus, Paired;
    forall id, height | id in before && DeriveStatus(before[id], height) == Complete
      ensures id in after && DeriveStatus(after[id], height) == Complete
    {
      assert Paired(before[id]) && Knows(after[id], before[id]);
      KnowingShowsComplete(after[id], before[id], height);
    }
  }

  const ID := "a"

  /** A completion without a resolution, as a record from elsewhere may carry it. */
  function Finished(): Record { Blank(ID).(completedAt := Some(1)) }

  function Doubted(): Record { Blank(ID).(completedAt := Some(2), resolution := Some(Unverified)) }

  lemma FinishedIsOvertaken()
    ensures !StaysComplete(map[ID := Finished()], map[ID := Merge(Finished(), Doubted())])
  {
    var before, after: Records := map[ID := Finished()], map[ID := Merge(Finished(), Doubted())];
    CompleteDowngradesIff(Finished(), Doubted(), None);
    assert DeriveStatus(before[ID], None) == Complete && DeriveStatus(after[ID], None) != Complete;
  }

  /**
   * A whole run in which a complete record turns unverified in memory, by the next record merged in, and then in the
   * remote object.
   */
  lemma CompletionOvertaken(cfg: Config) returns (trace: seq<World>, i: nat)
    requires !cfg.resolvesWithCompletion
    ensures IsRun(trace, cfg) && i + 1 < |trace| && 0 < |trace[i].devices|
    ensures StepOf(trace[i], trace[i + 1], 0, Upsert(Doubted()), cfg)
    ensures !StaysComplete(trace[i].devices[0].records, trace[i + 1].devices[0].records)
    ensures !StaysComplete(trace[i].cell.value, Last(trace).cell.value)
  {
    FinishedIsOvertaken();
    var one: Records, two: Records := map[ID := Finished()], map[ID := Merge(Finished(), Doubted())];
    assert UpsertInto(one, Doubted()) == two;
    hide Merge, StaysComplete, Next, Finished, Doubted;
    var before := FinishAndSave(cfg);
    i := |before| - 1;
    var t1 := Extend(before, cfg, 0, Upsert(Doubted()), Device(two, 1, one, Idle), Cell(1, one));
    trace := SaveAgain(t1, cfg, one, two);
    assert trace[i] == Last(before) && trace[i + 1] == Last(t1);
    hide IsRun;
  }

  lemma FinishAndSave(cfg: Config) returns (trace: seq<World>)
    requires !cfg.resolvesWithCompletion
    ensures var one: Records := map[ID := Finished()];
            IsRun(trace, cfg) && Last(trace) == World([Device(one, 1, one, Idle)], Cell(1, one))
  {
    hide Merge, Next;
    var one: Records, none := map[ID := Finished()], Cell(0, map[]);
    var t0 := FirstLoad([World([Device(map[], 0, map[], Idle)], none)], cfg, 0);
    hide IsRun;
    var t1 := Extend(t0, cfg, 0, Upsert(Finished()), Device(one, 0, map[], Idle), none);
    var t2 := Extend(t1, cfg, 0, StartPersist, Device(one, 0, one, Writing(one)), none);
    trace := Extend(t2, cfg, 0, Put, Device(one, 1, one, Idle), Cell(1, one));
  }

  lemma SaveAgain(trace: seq<World>, cfg: Config, one: Records, two: Records) returns (longer: seq<World>)
    requires IsRun(trace, cfg) && Last(trace) == World([Device(two, 1, one, Idle)], Cell(1, one))
    ensures IsRun(longer, cfg) && trace <= longer && Last(longer).cell.value == two
  {
    hide IsRun;
    var t1 := Extend(trace, cfg, 0, StartPersist, Device(two, 1, two, Writing(two)), Cell(1, one));
    longer := Extend(t1, cfg, 0, Put, Device(two, 2, two, Idle), Cell(2, two));
  }

  /**
   * Exactly when what the remote object shows as complete stays complete through all later writes of any device: no
   * fact is ever lost, and every recorded completion carries its resolution.
   */
  lemma RemoteStaysCompleteIff(cfg: Config)
    ensures (forall trace: seq<World>, i, j | IsRun(trace, cfg) && 0 <= i <= j < |trace| ::
               StaysComplete(trace[i].cell.value, trace[j].cell.value))
            <==> Safe(cfg) && cfg.resolvesWithCompletion
  {
    hide StaysComplete, IsRun;
    if Safe(cfg) && cfg.resolvesWithCompletion {
      forall trace: seq<World>, i, j | IsRun(trace, cfg) && 0 <= i <= j < |trace|
        ensures StaysComplete(trace[i].cell.value, trace[j].cell.value)
      {
        NoWriteLosesAFact(trace, cfg, i, j);
        EveryRunStaysPaired(trace, cfg, i);
        KnowingStaysComplete(trace[i].cell.value, trace[j].cell.value);
      }
    } else {
      var trace, i := RemoteCompletionLost(cfg);
      var j := |trace| - 1;
      assert 0 <= i <= j < |trace| && !StaysComplete(trace[i].cell.value, trace[j].cell.value);
    }
  }

  lemma RemoteCompletionLost(cfg: Config) returns (trace: seq<World>, i: nat)
    requires !Safe(cfg) || !cfg.resolvesWithCompletion
    ensures IsRun(trace, cfg) && i < |trace| && !StaysComplete(trace[i].cell.value, Last(trace).cell.value)
  {
    if !Safe(cfg) {
      trace, i := ReloadingWithinAPageCanLose(cfg);
      assert DeriveStatus(trace[i].cell.value[THEIRS], None) == Complete;
    } else {
      trace, i := CompletionOvertaken(cfg);
    }
  }

  /** A step that leaves the page and its memory alone. */
  predicate StaysInPage(e: Event) { e != Reload && e != LoadLocal }

  /**
   * Exactly when what a device shows as complete stays complete for as long as its page keeps its memory, whatever is
   * recorded, loaded or merged in: every recorded completion carries its resolution.
   */
  lemma MemoryStaysCompleteIff(cfg: Config)
    ensures (forall trace: seq<World>, n, who: nat, e |
               && IsRun(trace, cfg) && 0 <= n < |trace| - 1 && who < |trace[n].devices| && StaysInPage(e)
               && StepOf(trace[n], trace[n + 1], who, e, cfg) ::
               StaysComplete(trace[n].devices[who].records, trace[n + 1].devices[who].records))
            <==> cfg.resolvesWithCompletion
  {
    hide StaysComplete, IsRun, Enabled, DeviceAfter, CellAfter, WellFormed;
    if cfg.resolvesWithCompletion {
      forall trace: seq<World>, n, who: nat, e |
        && IsRun(trace, cfg) && 0 <= n < |trace| - 1 && who < |trace[n].devices| && StaysInPage(e)
        && StepOf(trace[n], trace[n + 1], who, e, cfg)
        ensures StaysComplete(trace[n].devices[who].records, trace[n + 1].devices[who].records)
      {
        StepStaysComplete(trace, cfg, n, who, e);
      }
    } else {
      var trace, i := CompletionOvertaken(cfg);
      var who: nat, e := 0, Upsert(Doubted());
      assert 0 <= i < |trace| - 1 && StaysInPage(e) && StepOf(trace[i], trace[i + 1], who, e, cfg);
    }
  }

  lemma StepStaysComplete(trace: seq<World>, cfg: Config, n: nat, who: nat, e: Event)
    requires IsRun(trace, cfg) && n < |trace| - 1 && who < |trace[n].devices| && StaysInPage(e)
    requires StepOf(trace[n], trace[n + 1], who, e, cfg) && cfg.resolvesWithCompletion
    ensures StaysComplete(trace[n].devices[who].records, trace[n + 1].devices[who].records)
  {
    EveryRunKeepsInv(trace, cfg, n);
    EveryRunStaysPaired(trace, cfg, n);
    StepKeepsInv(trace[n], trace[n + 1], who, e, cfg);
    assert trace[n].devices[who] in trace[n].devices;
    hide StaysComplete, Inv, IsRun, StepOf, KnowsAll, AllPaired;
    KnowingStaysComplete(trace[n].devices[who].records, trace[n + 1].devices[who].records);
  }
}
