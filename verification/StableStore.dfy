/**
 * The persistence of the stable-balance state: a versioned remote object when
 * one is configured, the local database always, and the copy in memory.
 */
module StableStore {
  import opened Results

  datatype Remote<T> = Remote(version: nat, value: T)

  /**
   * Memory and disk together. `dirty` says that the local database has not yet taken the state in memory;
   * `version` is the remote version that memory believes to be current.
   */
  datatype Image<T> = Image(remotely: bool, memory: T, dirty: bool, version: nat,
                            local: Option<T>, remote: Option<Remote<T>>)

  /** How the remote write goes: refused, applied with the answer lost, or applied. */
  datatype Reply = Denied | AnswerLost | Accepted

  datatype Luck = Luck(flushOk: bool, reply: Reply, localOk: bool)

  function RemoteVersion<T>(m: Image<T>): nat { if m.remote.Some? then m.remote.value.version else 0 }

  function Flushed<T>(m: Image<T>, ok: bool): Image<T>
  {
    if m.dirty && ok then m.(local := Some(m.memory), dirty := false) else m
  }

  function FlushWorks<T>(m: Image<T>, ok: bool): bool { !m.dirty || ok }

  /** The remote write of a save, as a compare-and-swap on the version. */
  function Sent<T>(m: Image<T>, next: T, reply: Reply): Image<T>
  {
    if !m.remotely || reply == Denied || m.version != RemoteVersion(m) then m
    else m.(remote := Some(Remote(m.version + 1, next)))
  }

  function SendWorks<T>(m: Image<T>, reply: Reply): bool
  {
    !m.remotely || (reply == Accepted && m.version == RemoteVersion(m))
  }

  /** Memory takes the new state before the local database does. */
  function Adopted<T>(m: Image<T>, next: T, localOk: bool): Image<T>
  {
    Flushed(m.(memory := next, dirty := true, version := if m.remotely then m.version + 1 else m.version), localOk)
  }

  function Saved<T>(m: Image<T>, next: T, luck: Luck): Image<T>
  {
    var f := Flushed(m, luck.flushOk);
    if !FlushWorks(m, luck.flushOk) then m
    else if !SendWorks(f, luck.reply) then Sent(f, next, luck.reply)
    else Adopted(Sent(f, next, luck.reply), next, luck.localOk)
  }

  function SaveWorks<T>(m: Image<T>, luck: Luck): bool
  {
    && FlushWorks(m, luck.flushOk)
    && SendWorks(Flushed(m, luck.flushOk), luck.reply)
    && luck.localOk
  }

  /** What a fresh page finds: the remote object if there is one, else the local copy. */
  function Recovered<T>(m: Image<T>, initial: T): T
  {
    if m.remotely && m.remote.Some? then m.remote.value.value
    else if m.local.Some? then m.local.value else initial
  }

  function Reloaded<T>(m: Image<T>, initial: T): Image<T>
  {
    var state := Recovered(m, initial);
    Image(m.remotely, state, false, if m.remotely then RemoteVersion(m) else 0,
          if m.remotely && m.remote.Some? then Some(state) else m.local, m.remote)
  }

  /**
   * How far memory and disk are apart: not at all; or there is no remote object and memory is ahead of the
   * local database; or a lost answer left the remote object ahead, and then no save works until a reload.
   */
  datatype Drift = Together | MemoryAhead | DiskAhead

  function DriftOf<T>(m: Image<T>): Drift
  {
    if m.remotely then (if m.version == RemoteVersion(m) then Together else DiskAhead)
    else if m.dirty then MemoryAhead else Together
  }

  ghost predicate Coherent<T(!new)>(m: Image<T>, initial: T)
  {
    && (m.remotely ==> m.version <= RemoteVersion(m))
    && (m.remotely && m.remote.None? ==> !m.dirty)
    && (DriftOf(m) == Together ==> Recovered(m, initial) == m.memory)
  }

  /**
   * A save that works leaves memory and disk together on the new state. One that fails changes nothing, or
   * puts only the disk ahead, or only memory.
   */
  lemma SaveMovesDrift<T(!new)>(m: Image<T>, initial: T, next: T, luck: Luck)
    requires Coherent(m, initial) && !m.dirty
    ensures var s := Saved(m, next, luck);
            && Coherent(s, initial)
            && (SaveWorks(m, luck) ==>
                  DriftOf(m) == DriftOf(s) == Together && s.memory == next && !s.dirty && s.local == Some(next))
            && (!SaveWorks(m, luck) && s != m ==>
                  && DriftOf(m) == Together
                  && (if s.dirty then
                        s.memory == next
                        && (if m.remotely then DriftOf(s) == Together
                            else DriftOf(s) == MemoryAhead && Recovered(s, initial) == m.memory)
                      else s.memory == m.memory && DriftOf(s) == DiskAhead && Recovered(s, initial) == next))
  {
  }

  lemma SavedIsOldOrNew<T(!new)>(m: Image<T>, next: T, luck: Luck)
    ensures Saved(m, next, luck).memory == m.memory || Saved(m, next, luck).memory == next
    ensures SaveWorks(m, luck) ==> Saved(m, next, luck).memory == next && !Saved(m, next, luck).dirty
  {
  }

  lemma FlushRejoins<T(!new)>(m: Image<T>, initial: T, ok: bool)
    requires Coherent(m, initial)
    ensures var f := Flushed(m, ok);
            && Coherent(f, initial) && f.memory == m.memory
            && (FlushWorks(m, ok) ==> !f.dirty)
            && ((DriftOf(f) == DriftOf(m) && Recovered(f, initial) == Recovered(m, initial))
                || (DriftOf(f) == Together && Recovered(f, initial) == m.memory))
  {
  }

  /** After a reload memory holds what the disk held, and the two agree. */
  lemma ReloadRejoins<T(!new)>(m: Image<T>, initial: T)
    requires Coherent(m, initial)
    ensures var r := Reloaded(m, initial);
            && Coherent(r, initial) && !r.dirty && DriftOf(r) == Together
            && r.memory == Recovered(m, initial) == Recovered(r, initial)
            && (m.remotely && m.remote.Some? ==> r.local == Some(m.remote.value.value))
            && (!(m.remotely && m.remote.Some?) ==> r.local == m.local)
  {
  }

  class Persistence<T> {
    const remotely: bool
    const initial: T
    var state: T
    var version: nat
    var pendingLocal: Option<T>
    var local: Option<T>
    var remote: Option<Remote<T>>

    constructor (remotely: bool, initial: T)
      ensures Valid() && this.remotely == remotely && this.initial == initial
      ensures Value() == Image(remotely, initial, false, 0, None, None)
    {
      this.remotely, this.initial, state := remotely, initial, initial;
      version, pendingLocal, local, remote := 0, None, None, None;
    }

    ghost predicate Valid()
      reads this
    {
      pendingLocal.Some? ==> pendingLocal.value == state
    }

    ghost function Value(): Image<T>
      reads this
    {
      Image(remotely, state, pendingLocal.Some?, version, local, remote)
    }

    method Flush(ok: bool) returns (done: bool)
      requires Valid()
      modifies this
      ensures Valid()
      ensures Value() == Flushed(old(Value()), ok) && done == FlushWorks(old(Value()), ok)
      ensures done ==> pendingLocal.None?
    {
      if pendingLocal.None? {
        return true;
      }
      if !ok {
        return false;
      }
      local := pendingLocal;
      pendingLocal := None;
      done := true;
    }

    method Save(next: T, luck: Luck) returns (done: bool)
      requires Valid()
      modifies this
      ensures Valid()
      ensures Value() == Saved(old(Value()), next, luck) && done == SaveWorks(old(Value()), luck)
    {
      var flushed := Flush(luck.flushOk);
      if !flushed {
        return false;
      }
      if remotely {
        if luck.reply == Denied || version != (if remote.Some? then remote.value.version else 0) {
          return false;
        }
        remote := Some(Remote(version + 1, next));
        if luck.reply == AnswerLost {
          return false;
        }
        version := version + 1;
      }
      state := next;
      pendingLocal := Some(next);
      done := Flush(luck.localOk);
    }

    /** A fresh page: only the local database and the remote object are left. */
    method Load()
      modifies this
      ensures Valid() && pendingLocal.None?
      ensures Value() == Reloaded(old(Value()), initial)
    {
      state, version, pendingLocal := initial, 0, None;
      if local.Some? {
        state := local.value;
      }
      if remotely {
        version := if remote.Some? then remote.value.version else 0;
        if remote.Some? {
          state := remote.value.value;
          local := Some(state);
        }
      }
    }
  }
}
