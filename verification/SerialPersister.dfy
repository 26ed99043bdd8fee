/**
 * The single-flight persist scheduler: one doPersist at a time, bursts of
 * calls folded into one trailing run, and a retry latch after a failure.
 *
 * JavaScript runs each synchronous stretch without interruption, so the
 * machine's steps are those stretches: a call of schedule or cancel, the
 * continuation after doPersist settles, and the finally callback that runs
 * some time after the loop has ended.
 */
module SerialPersister {

  datatype Phase =
    | Idle        // no promise in flight
    | Persisting  // doPersist is running
    | Leaving     // the loop has ended, its finally callback has not run

  datatype Event =
    | Signal             // the dirty source is marked (only when there is one)
    | Schedule
    | Settled(ok: bool)  // doPersist resolved or threw
    | Finally
    | Cancel

  /** The closure variables, and a history of signals and runs that nothing reads. */
  datatype State = State(
    hasSource: bool,
    sourceDirty: bool,
    phase: Phase,
    pendingDirty: bool,
    mustRetry: bool,
    cancelled: bool,
    raised: nat,     // signals so far, cancelled ones apart
    runMark: nat,    // signals when the current or last run started
    savedMark: nat,  // signals when the last successful run started
    active: nat,     // runs of doPersist now in progress
    starts: nat,
    failures: nat)

  function Init(hasSource: bool): State
  {
    State(hasSource, false, Idle, false, false, false, 0, 0, 0, 0, 0, 0)
  }

  predicate Enabled(s: State, e: Event)
  {
    match e
    case Signal => s.hasSource
    case Settled(_) => s.phase == Persisting
    case Finally => s.phase == Leaving
    case _ => true
  }

  /** Ask the source, or count the call itself, as work. */
  function ConsumeDirty(s: State): State
  {
    if s.hasSource then s.(pendingDirty := s.pendingDirty || s.sourceDirty, sourceDirty := false)
    else s.(pendingDirty := true, raised := s.raised + 1)
  }

  /** One pass over the loop head: leave, or clear the flags and start doPersist. */
  function LoopHead(s: State): State
  {
    if s.cancelled then s.(phase := Leaving)
    else
      var t := if s.hasSource then s.(pendingDirty := s.pendingDirty || s.sourceDirty, sourceDirty := false) else s;
      if !t.pendingDirty && !t.mustRetry then t.(phase := Leaving)
      else t.(phase := Persisting, pendingDirty := false, mustRetry := false,
              runMark := t.raised, active := t.active + 1, starts := t.starts + 1)
  }

  function Apply(s: State, e: Event): State
    requires Enabled(s, e)
  {
    match e
    case Signal => s.(sourceDirty := true, raised := if s.cancelled then s.raised else s.raised + 1)
    case Schedule =>
      if s.cancelled then s
      else
        var t := ConsumeDirty(s);
        if (!t.pendingDirty && !t.mustRetry) || t.phase != Idle then t else LoopHead(t)
    case Settled(ok) =>
      var t := s.(active := if s.active > 0 then s.active - 1 else 0);
      if ok then LoopHead(t.(savedMark := t.runMark))
      else t.(mustRetry := true, phase := Leaving, failures := t.failures + 1)
    case Finally => s.(phase := Idle)
    case Cancel => s.(cancelled := true)
  }

  // ----- every run -----

  ghost predicate Follows(trace: seq<State>, events: seq<Event>)
  {
    && |trace| == |events| + 1
    && forall i | 0 <= i < |events| :: Enabled(trace[i], events[i]) && trace[i + 1] == Apply(trace[i], events[i])
  }

  ghost predicate IsRun(trace: seq<State>, events: seq<Event>, hasSource: bool)
  {
    Follows(trace, events) && trace[0] == Init(hasSource)
  }

  /** All signals so far reached a run that succeeded or is in progress, or work is still flagged. */
  predicate NothingForgotten(s: State)
  {
    || s.savedMark == s.raised
    || (s.phase == Persisting && s.runMark == s.raised)
    || s.sourceDirty || s.pendingDirty || s.mustRetry
  }

  function Flag(b: bool): nat { if b then 1 else 0 }

  predicate Inv(s: State)
  {
    && NothingForgotten(s)
    && s.active == Flag(s.phase == Persisting)
    && s.savedMark <= s.runMark <= s.raised
    && (!s.hasSource ==> !s.sourceDirty)
    && s.starts + Flag(s.pendingDirty) + Flag(s.sourceDirty && !s.cancelled) + Flag(s.mustRetry)
       <= s.raised + s.failures
  }

  lemma StepKeepsInv(s: State, e: Event)
    requires Inv(s) && Enabled(s, e)
    ensures Inv(Apply(s, e))
  {
    match e {
      case Signal =>
      case Schedule => ScheduleKeepsInv(s);
      case Settled(ok) => SettledKeepsInv(s, ok);
      case Finally =>
      case Cancel =>
    }
  }

  lemma ScheduleKeepsInv(s: State)
    requires Inv(s)
    ensures Inv(Apply(s, Schedule))
  {
  }

  lemma SettledKeepsInv(s: State, ok: bool)
    requires Inv(s) && Enabled(s, Settled(ok))
    ensures Inv(Apply(s, Settled(ok)))
  {
  }

  /**
   * In every reachable state no signal is forgotten, at most one doPersist runs, and each run
   * was paid for by its own signal or by a failure that had to be retried.
   */
  lemma {:induction false} EveryRunKeepsInv(trace: seq<State>, events: seq<Event>, hasSource: bool)
    requires IsRun(trace, events, hasSource)
    ensures forall s | s in trace :: NothingForgotten(s) && s.active <= 1 && s.starts <= s.raised + s.failures
    ensures Inv(trace[|events|])
  {
    if events != [] {
      var n := |events| - 1;
      EveryRunKeepsInv(trace[..n + 1], events[..n], hasSource);
      var s, e := trace[n], events[n];
      assert trace[..n + 1][n] == s && Inv(s);
      StepKeepsInv(s, e);
      assert trace == trace[..n + 1] + [trace[n + 1]];
    }
  }

  /**
   * Once signals stop, two successful runs and the finally callback are enough to have every
   * signal saved and the scheduler idle: a burst costs one leading and one trailing run.
   */
  lemma BurstsDrainInTwoRuns(s: State)
    requires Inv(s) && s.phase == Persisting && !s.cancelled
    ensures var first := Apply(s, Settled(true));
            if first.phase == Persisting then
              var second := Apply(first, Settled(true));
              && second.phase == Leaving
              && second.starts == s.starts + 1
              && Apply(second, Finally).phase == Idle
              && second.savedMark == second.raised == s.raised
            else
              && first.phase == Leaving
              && first.starts == s.starts
              && first.savedMark == first.raised == s.raised
  {
  }

  /**
   * A call that falls between the end of the loop and the finally callback starts no run, and none
   * follows by itself: the work stays flagged until the next call, which does start it.
   */
  lemma CallInTheGapWaits(s: State)
    requires Inv(s) && s.phase == Leaving && !s.cancelled && !s.hasSource
    ensures var idle := Apply(Apply(s, Schedule), Finally);
            && idle.phase == Idle && idle.pendingDirty && idle.starts == s.starts
            && Apply(idle, Schedule).phase == Persisting
            && Apply(idle, Schedule).runMark == s.raised + 2
  {
  }

  // ----- what a call is promised -----

  /** Nobody cancels and no run fails. */
  ghost predicate GoesWell(events: seq<Event>) { Cancel !in events && Settled(false) !in events }

  /**
   * All signals up to the mark are saved, or the present run covers them, or it does not and the next one, for which
   * work is flagged, will.
   */
  predicate Covered(s: State, mark: nat)
  {
    && !s.cancelled && s.raised >= mark
    && (s.savedMark >= mark
        || (s.phase == Persisting && (s.runMark >= mark || s.sourceDirty || s.pendingDirty || s.mustRetry)))
  }

  lemma StepStaysCovered(s: State, e: Event, mark: nat)
    requires Inv(s) && Enabled(s, e) && e != Cancel && e != Settled(false) && Covered(s, mark)
    ensures Covered(Apply(s, e), mark)
    ensures Apply(s, e).starts >= s.starts
    ensures Apply(s, e).starts > s.starts ==> Apply(s, e).runMark >= mark
    ensures Apply(s, e).runMark >= s.runMark
  {
  }

  /** Coverage lasts, and from the next start on the present run covers the mark. */
  lemma {:induction false} StaysCovered(trace: seq<State>, events: seq<Event>, mark: nat, n: nat)
    requires Follows(trace, events) && GoesWell(events) && n < |trace|
    requires Inv(trace[0]) && Covered(trace[0], mark)
    ensures Inv(trace[n]) && Covered(trace[n], mark)
    ensures trace[n].starts >= trace[0].starts && trace[n].runMark >= trace[0].runMark
    ensures trace[n].starts > trace[0].starts ==> trace[n].runMark >= mark
    decreases n
  {
    if n > 0 {
      StaysCovered(trace, events, mark, n - 1);
      var s, e := trace[n - 1], events[n - 1];
      assert e in events && Enabled(s, e) && trace[n - 1 + 1] == Apply(s, e);
      StepKeepsInv(s, e);
      StepStaysCovered(s, e, mark);
    }
  }

  /**
   * The promise that a call is handed keeps its word: however the machine goes on, as long as nobody cancels and no run
   * fails, once it is idle everything signalled up to the call is saved.
   */
  ghost predicate Served(s: State)
  {
    var called := Apply(s, Schedule);
    forall trace: seq<State>, events, n | Follows(trace, events) && GoesWell(events) && trace[0] == called && 0 <= n < |trace|
                              && trace[n].phase == Idle ::
      trace[n].savedMark >= called.raised
  }

  /**
   * The gap between the end of the loop and the finally callback is the only place where a call with work to do is
   * not served.
   */
  lemma ServedIff(s: State)
    requires Inv(s) && !s.cancelled
    ensures Served(s) <==> s.phase != Leaving || Apply(s, Schedule).savedMark == Apply(s, Schedule).raised
  {
    var called := Apply(s, Schedule);
    StepKeepsInv(s, Schedule);
    if s.phase != Leaving || called.savedMark == called.raised {
      assert Covered(called, called.raised);
      forall trace: seq<State>, events, n | Follows(trace, events) && GoesWell(events) && trace[0] == called && 0 <= n < |trace|
                                && trace[n].phase == Idle
        ensures trace[n].savedMark >= called.raised
      {
        StaysCovered(trace, events, called.raised, n);
      }
    } else {
      var trace, events := [called, Apply(called, Finally)], [Finally];
      assert Follows(trace, events) && GoesWell(events) && trace[1].phase == Idle;
    }
  }

  /** What makes a call look for a run: the call itself when there is no source, a mark, or work left over. */
  predicate HasWork(s: State) { !s.hasSource || s.sourceDirty || s.pendingDirty || s.mustRetry }

  /**
   * A call with work to do when idle starts the run that covers it; one during a run is covered by the next run, if not
   * by the present one.
   */
  lemma CallIsCovered(s: State, trace: seq<State>, events: seq<Event>, n: nat)
    requires Inv(s) && !s.cancelled && s.phase != Leaving
    requires Follows(trace, events) && GoesWell(events) && trace[0] == Apply(s, Schedule) && n < |trace|
    ensures s.phase == Idle && HasWork(s) ==>
              trace[0].phase == Persisting && trace[0].starts == s.starts + 1 && trace[n].runMark >= trace[0].raised
    ensures s.phase == Persisting ==> trace[0].phase == Persisting && trace[0].starts == s.starts
    ensures trace[n].starts > trace[0].starts ==> trace[n].runMark >= trace[0].raised
    ensures trace[n].phase != Persisting ==> trace[n].savedMark >= trace[0].raised
  {
    StepKeepsInv(s, Schedule);
    assert Covered(trace[0], trace[0].raised);
    StaysCovered(trace, events, trace[0].raised, n);
  }

  /** Something to do: a mark, work left over, or a run that failed. */
  predicate Flagged(s: State) { s.sourceDirty || s.pendingDirty || s.mustRetry }

  /**
   * Exactly when a run starts: by a call while none is in flight, if there is work, or right after a run that succeeded, if
   * more was flagged meanwhile. Nothing else starts one, and no step starts two.
   */
  lemma RunStartsIff(s: State, e: Event)
    requires Inv(s) && Enabled(s, e)
    ensures var starts := !s.cancelled && (|| (e == Schedule && s.phase == Idle && HasWork(s))
                                           || (e == Settled(true) && Flagged(s)));
            && Apply(s, e).starts == (if starts then s.starts + 1 else s.starts)
            && (Apply(s, e).phase == Persisting <==> starts || (s.phase == Persisting && !e.Settled?))
  {
  }

  /** A failure ends the loop and is remembered: once the promise slot is free, the next call tries again without new work. */
  lemma FailureWaitsForTheNextCall(s: State)
    requires Inv(s) && s.phase == Persisting && !s.cancelled
    ensures var failed := Apply(s, Settled(false));
            && failed.phase == Leaving && failed.starts == s.starts && failed.savedMark == s.savedMark
            && Apply(failed, Finally).phase == Idle
            && Apply(Apply(failed, Finally), Schedule).phase == Persisting
            && Apply(Apply(failed, Finally), Schedule).starts == s.starts + 1
  {
  }

  /** After cancel no further run starts. */
  lemma CancelStartsNothing(s: State, e: Event)
    requires s.cancelled && Enabled(s, e)
    ensures Apply(s, e).cancelled && Apply(s, e).starts == s.starts
  {
  }

  // ----- the scheduler itself -----

  class Scheduler {
    const hasSource: bool
    var sourceDirty: bool
    var inFlight: bool
    var persisting: bool
    var pendingDirty: bool
    var mustRetry: bool
    var cancelled: bool
    ghost var history: State

    ghost predicate Valid()
      reads this
    {
      && Inv(history)
      && history.hasSource == hasSource
      && history.sourceDirty == sourceDirty
      && history.phase == (if !inFlight then Idle else if persisting then Persisting else Leaving)
      && (persisting ==> inFlight)
      && history.pendingDirty == pendingDirty
      && history.mustRetry == mustRetry
      && history.cancelled == cancelled
    }

    constructor (hasSource: bool)
      ensures Valid() && history == Init(hasSource)
    {
      this.hasSource := hasSource;
      sourceDirty, inFlight, persisting, pendingDirty, mustRetry, cancelled := false, false, false, false, false, false;
      history := Init(hasSource);
    }

    method MarkSource()
      requires Valid() && hasSource
      modifies this
      ensures Valid() && history == Apply(old(history), Signal)
    {
      sourceDirty := true;
      history := Apply(history, Signal);
    }

    method ConsumeSource()
      requires hasSource
      modifies `sourceDirty, `pendingDirty
      ensures pendingDirty == (old(pendingDirty) || old(sourceDirty)) && !sourceDirty
    {
      if sourceDirty {
        sourceDirty := false;
        pendingDirty := true;
      }
    }

    /** The loop head, run on entry and after every successful doPersist. */
    method RunLoop()
      requires !inFlight || !persisting
      modifies `sourceDirty, `pendingDirty, `mustRetry, `persisting
      ensures var leaves := old(cancelled || (!pendingDirty && !(hasSource && sourceDirty) && !mustRetry));
              && persisting == !leaves
              && mustRetry == (leaves && old(mustRetry))
              && pendingDirty == (leaves && old(pendingDirty))
              && sourceDirty == (old(sourceDirty) && (old(cancelled) || !hasSource))
    {
      persisting := false;
      if cancelled {
        return;
      }
      if hasSource {
        ConsumeSource();
      }
      if !pendingDirty && !mustRetry {
        return;
      }
      pendingDirty, mustRetry := false, false;
      persisting := true;
    }

    /** Returns whether the caller is handed a promise of a run in flight. */
    method Schedule() returns (joined: bool)
      requires Valid()
      modifies this
      ensures Valid() && history == Apply(old(history), Event.Schedule)
      ensures joined == (!cancelled && inFlight)
    {
      if cancelled {
        return false;
      }
      ghost var before := history;
      if hasSource {
        ConsumeSource();
      } else {
        pendingDirty := true;
      }
      history := Apply(history, Event.Schedule);
      if !pendingDirty && !mustRetry {
        return inFlight;
      }
      if inFlight {
        return true;
      }
      RunLoop();
      inFlight := true;
      return true;
    }

    /** The continuation after doPersist settles. */
    method AfterPersist(ok: bool)
      requires Valid() && persisting
      modifies this
      ensures Valid() && history == Apply(old(history), Settled(ok))
    {
      history := Apply(history, Settled(ok));
      persisting := false;
      if !ok {
        mustRetry := true;
        return;
      }
      RunLoop();
    }

    method FinallyCallback()
      requires Valid() && inFlight && !persisting
      modifies this
      ensures Valid() && history == Apply(old(history), Finally)
    {
      inFlight := false;
      history := Apply(history, Finally);
    }

    method CancelRuns()
      requires Valid()
      modifies this
      ensures Valid() && history == Apply(old(history), Cancel)
    {
      cancelled := true;
      history := Apply(history, Cancel);
    }
  }
}
