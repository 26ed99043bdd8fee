/**
 * Which record decides each fact of a merged close record: the first that has it, the last that has it, or all of them together.
 * This is said of any sequence of merges, and of the maps of records that devices exchange, without the merge itself.
 */
module CloseFacts {
  import opened Results
  import opened CloseRecord
  import opened CloseRecordSync

  /** The value of the first entry that has one, or none. */
  ghost predicate IsFirst<T(!new)>(v: Option<T>, xs: seq<Option<T>>)
  {
    if v.None? then forall i | 0 <= i < |xs| :: xs[i].None?
    else exists i :: 0 <= i < |xs| && xs[i] == v && forall j | 0 <= j < i :: xs[j].None?
  }

  /** The value of the last entry that has one, or none. */
  ghost predicate IsLast<T(!new)>(v: Option<T>, xs: seq<Option<T>>)
  {
    if v.None? then forall i | 0 <= i < |xs| :: xs[i].None?
    else exists i :: 0 <= i < |xs| && xs[i] == v && forall j | i < j < |xs| :: xs[j].None?
  }

  lemma FirstOfMore<T(!new)>(v: Option<T>, xs: seq<Option<T>>, x: Option<T>)
    requires IsFirst(v, xs)
    ensures IsFirst(if v.Some? then v else x, xs + [x])
  {
    if v.Some? {
      var i :| 0 <= i < |xs| && xs[i] == v && forall j | 0 <= j < i :: xs[j].None?;
      assert (xs + [x])[i] == v;
    } else if x.Some? {
      assert (xs + [x])[|xs|] == x;
    }
  }

  lemma LastOfMore<T(!new)>(v: Option<T>, xs: seq<Option<T>>, x: Option<T>)
    requires IsLast(v, xs)
    ensures IsLast(if x.Some? then x else v, xs + [x])
  {
    if x.Some? {
      assert (xs + [x])[|xs|] == x;
    } else if v.Some? {
      var i :| 0 <= i < |xs| && xs[i] == v && forall j | i < j < |xs| :: xs[j].None?;
      assert (xs + [x])[i] == v;
    }
  }

  // ----- the facts of a record -----

  function FundingOf(r: Record): Option<Outpoint> { r.fundingTxo }
  function ReasonOf(r: Record): Option<string> { r.closureReason }
  function TimelockOf(r: Record): Option<int> { r.timelockBlocks }
  function CompletionOf(r: Record): Option<int> { r.completedAt }
  function AmountOf(r: Record): Option<int> { r.expectedAmount }
  function ClaimableOf(r: Record): Option<int> { r.claimableAt }
  function TypeOf(r: Record): Option<CloseType> { if r.closeType == UnknownType then None else Some(r.closeType) }
  function InitiatorOf(r: Record): Option<Initiator>
  {
    if r.initiator == UnknownInitiator then None else Some(r.initiator)
  }
  function ResolutionOf(r: Record): Option<Resolution> { r.resolution }
  function ExtraOf(key: string): Record -> Option<string>
  {
    (r: Record) => if r.extras.Some? && key in r.extras.value then Some(r.extras.value[key]) else None
  }

  /** The entries of one txid: its role, its fee and its confirmation height. */
  function RoleOf(txid: string): Record -> Option<Role>
  {
    (r: Record) => if Lookup(r.txs, txid).Some? then Some(Lookup(r.txs, txid).value.role) else None
  }
  function FeeOf(txid: string): Record -> Option<int>
  {
    (r: Record) => if Lookup(r.txs, txid).Some? then Lookup(r.txs, txid).value.fee else None
  }
  function HeightOf(txid: string): Record -> Option<int>
  {
    (r: Record) => if Lookup(r.txs, txid).Some? then Lookup(r.txs, txid).value.confirmedAt else None
  }

  /** One fact of each record. */
  function Column<T>(all: seq<Record>, fact: Record -> Option<T>): (xs: seq<Option<T>>)
    ensures |xs| == |all| && forall i | 0 <= i < |all| :: xs[i] == fact(all[i])
  {
    seq(|all|, i requires 0 <= i < |all| => fact(all[i]))
  }

  lemma ColumnOfMore<T>(all: seq<Record>, x: Record, fact: Record -> Option<T>)
    ensures Column(all + [x], fact) == Column(all, fact) + [fact(x)]
  {
  }

  // ----- what a merged record holds -----

  /** The facts that were known first: what identifies the close, and its completion. */
  ghost predicate FirstFacts(r: Record, all: seq<Record>)
  {
    && IsFirst(FundingOf(r), Column(all, FundingOf))
    && IsFirst(ReasonOf(r), Column(all, ReasonOf))
    && IsFirst(TimelockOf(r), Column(all, TimelockOf))
    && IsFirst(CompletionOf(r), Column(all, CompletionOf))
    && FirstExtras(r, all)
  }

  /** Each field that only newer versions know has the value it was first given. */
  ghost predicate FirstExtras(r: Record, all: seq<Record>)
  {
    forall key :: IsFirst(ExtraOf(key)(r), Column(all, ExtraOf(key)))
  }

  /** The facts that were told last: measurements, and who closed the channel and how, as far as that is known. */
  ghost predicate LastFacts(r: Record, all: seq<Record>)
  {
    && IsLast(AmountOf(r), Column(all, AmountOf))
    && IsLast(ClaimableOf(r), Column(all, ClaimableOf))
    && IsLast(TypeOf(r), Column(all, TypeOf))
    && IsLast(InitiatorOf(r), Column(all, InitiatorOf))
  }

  /** The facts that all of them decide together. */
  ghost predicate JointFacts(r: Record, all: seq<Record>)
  {
    && (forall i | 0 <= i < |all| :: r.createdAt <= all[i].createdAt && r.schemaVersion >= all[i].schemaVersion)
    && (exists i :: 0 <= i < |all| && r.createdAt == all[i].createdAt)
    && (exists i :: 0 <= i < |all| && r.schemaVersion == all[i].schemaVersion)
    && (if exists i :: 0 <= i < |all| && all[i].resolution == Some(Verified) then r.resolution == Some(Verified)
        else IsFirst(ResolutionOf(r), Column(all, ResolutionOf)))
    && (r.extras.Some? <==> exists i :: 0 <= i < |all| && all[i].extras.Some?)
  }

  /** The entry of each txid: there when some record has it, with the first role, fee and confirmation height told of it. */
  ghost predicate TxFacts(r: Record, all: seq<Record>)
  {
    forall txid ::
      && IsFirst(RoleOf(txid)(r), Column(all, RoleOf(txid)))
      && IsFirst(FeeOf(txid)(r), Column(all, FeeOf(txid)))
      && IsFirst(HeightOf(txid)(r), Column(all, HeightOf(txid)))
  }

  // ----- one more record -----

  lemma FirstFactsOfMore(r: Record, all: seq<Record>, x: Record)
    requires FirstFacts(r, all)
    ensures FirstFacts(Merge(r, x), all + [x])
  {
    hide IsFirst, MergeTxs, FirstExtras, MergeExtras;
    OneFirst(r, all, x, FundingOf);
    OneFirst(r, all, x, ReasonOf);
    OneFirst(r, all, x, TimelockOf);
    OneFirst(r, all, x, CompletionOf);
    FirstExtrasOfMore(r, all, x);
  }

  lemma FirstExtrasOfMore(r: Record, all: seq<Record>, x: Record)
    requires FirstExtras(r, all)
    ensures FirstExtras(Merge(r, x), all + [x])
  {
    hide IsFirst, MergeTxs;
    var m := Merge(r, x);
    forall key ensures IsFirst(ExtraOf(key)(m), Column(all + [x], ExtraOf(key))) {
      OneFirst(r, all, x, ExtraOf(key));
      assert ExtraOf(key)(m) == if ExtraOf(key)(r).Some? then ExtraOf(key)(r) else ExtraOf(key)(x);
    }
  }

  lemma OneFirst<T(!new)>(r: Record, all: seq<Record>, x: Record, fact: Record -> Option<T>)
    requires IsFirst(fact(r), Column(all, fact))
    ensures IsFirst(if fact(r).Some? then fact(r) else fact(x), Column(all + [x], fact))
  {
    FirstOfMore(fact(r), Column(all, fact), fact(x));
    ColumnOfMore(all, x, fact);
  }

  lemma OneLast<T(!new)>(r: Record, all: seq<Record>, x: Record, fact: Record -> Option<T>)
    requires IsLast(fact(r), Column(all, fact))
    ensures IsLast(if fact(x).Some? then fact(x) else fact(r), Column(all + [x], fact))
  {
    LastOfMore(fact(r), Column(all, fact), fact(x));
    ColumnOfMore(all, x, fact);
  }

  lemma LastFactsOfMore(r: Record, all: seq<Record>, x: Record)
    requires LastFacts(r, all)
    ensures LastFacts(Merge(r, x), all + [x])
  {
    hide IsLast, MergeTxs, MergeExtras;
    OneLast(r, all, x, AmountOf);
    OneLast(r, all, x, ClaimableOf);
    OneLast(r, all, x, TypeOf);
    OneLast(r, all, x, InitiatorOf);
  }

  lemma JointFactsOfMore(r: Record, all: seq<Record>, x: Record)
    requires JointFacts(r, all)
    ensures JointFacts(Merge(r, x), all + [x])
  {
    hide IsFirst, MergeTxs;
    var m, more := Merge(r, x), all + [x];
    var i :| 0 <= i < |all| && r.createdAt == all[i].createdAt;
    var j :| 0 <= j < |all| && r.schemaVersion == all[j].schemaVersion;
    assert more[i] == all[i] && more[j] == all[j] && more[|all|] == x;
    if v :| 0 <= v < |all| && all[v].resolution == Some(Verified) {
      assert more[v].resolution == Some(Verified);
    } else {
      OneFirst(r, all, x, ResolutionOf);
      assert x.resolution == Some(Verified) ==> more[|all|].resolution == Some(Verified);
    }
    if e :| 0 <= e < |all| && all[e].extras.Some? {
      assert more[e].extras.Some?;
    }
  }

  // ----- transactions -----

  /** What two entries of one txid say together, the first one leading. */
  function Combine(a: Option<RecordTx>, b: Option<RecordTx>): Option<RecordTx>
  {
    match (a, b)
    case (Some(x), Some(y)) =>
      Some(RecordTx(x.txid, x.role, if x.fee.Some? then x.fee else y.fee,
                    if x.confirmedAt.Some? then x.confirmedAt else y.confirmedAt))
    case (Some(x), None) => a
    case (None, _) => b
  }

  lemma LookupOneMore(txs: seq<RecordTx>, t: RecordTx, txid: string)
    requires Find(txs, t.txid) == |txs|
    ensures Lookup(txs + [t], txid) == if t.txid == txid then Some(t) else Lookup(txs, txid)
  {
    FindIs(txs + [t], txid, if t.txid == txid || Find(txs, txid) == |txs| then
                              if t.txid == txid then |txs| else |txs| + 1
                            else Find(txs, txid));
  }

  lemma LookupFilled(txs: seq<RecordTx>, t: RecordTx, txid: string)
    requires Distinct(txs)
    ensures Lookup(Fill(txs, t), txid)
         == if t.txid == txid then Combine(Lookup(txs, txid), Some(t)) else Lookup(txs, txid)
  {
    var k := Find(txs, t.txid);
    if k < |txs| {
      FindIs(Fill(txs, t), txid, Find(txs, txid));
    } else {
      LookupOneMore(txs, t, txid);
    }
  }

  /** After the merge each txid has the combined entry of the two lists. */
  lemma {:induction false} LookupFillAll(a: seq<RecordTx>, b: seq<RecordTx>, txid: string)
    requires Distinct(a) && Distinct(b)
    ensures Lookup(FillAll(a, b), txid) == Combine(Lookup(a, txid), Lookup(b, txid))
  {
    if b != [] {
      var n := |b| - 1;
      LookupFillAll(a, b[..n], txid);
      FillAllDistinct(a, b[..n]);
      LookupFilled(FillAll(a, b[..n]), b[n], txid);
      FindIs(b[..n], b[n].txid, n);
      LookupOneMore(b[..n], b[n], txid);
      assert b == b[..n] + [b[n]];
      if b[n].txid == txid {
        assert Lookup(b[..n], txid).None?;
      }
    }
  }

  lemma TxFactsOfMore(r: Record, all: seq<Record>, x: Record)
    requires TxFacts(r, all) && Distinct(r.txs) && Distinct(x.txs)
    ensures TxFacts(Merge(r, x), all + [x])
  {
    hide IsFirst, FillAll, Lookup, Distinct, Merge;
    var m := Merge(r, x);
    assert m.txs == FillAll(r.txs, x.txs) by {
      DistinctIsNormal(r.txs);
      MergedTxs(r, x);
    }
    forall txid
      ensures IsFirst(RoleOf(txid)(m), Column(all + [x], RoleOf(txid)))
      ensures IsFirst(FeeOf(txid)(m), Column(all + [x], FeeOf(txid)))
      ensures IsFirst(HeightOf(txid)(m), Column(all + [x], HeightOf(txid)))
    {
      LookupFillAll(r.txs, x.txs, txid);
      OneFirst(r, all, x, RoleOf(txid));
      OneFirst(r, all, x, FeeOf(txid));
      OneFirst(r, all, x, HeightOf(txid));
      CombinedFacts(r, x, m, txid);
    }
  }

  lemma MergedTxs(r: Record, x: Record)
    ensures Merge(r, x).txs == FillAll(PutAll([], r.txs), x.txs)
  {
  }

  lemma CombinedFacts(r: Record, x: Record, m: Record, txid: string)
    requires Lookup(m.txs, txid) == Combine(Lookup(r.txs, txid), Lookup(x.txs, txid))
    ensures RoleOf(txid)(m) == if RoleOf(txid)(r).Some? then RoleOf(txid)(r) else RoleOf(txid)(x)
    ensures FeeOf(txid)(m) == if FeeOf(txid)(r).Some? then FeeOf(txid)(r) else FeeOf(txid)(x)
    ensures HeightOf(txid)(m) == if HeightOf(txid)(r).Some? then HeightOf(txid)(r) else HeightOf(txid)(x)
  {
    hide Lookup;
  }

  // ----- any sequence of merges -----

  lemma OneRecord(r: Record)
    ensures FirstFacts(r, [r]) && LastFacts(r, [r]) && JointFacts(r, [r]) && TxFacts(r, [r])
  {
    forall key ensures IsFirst(ExtraOf(key)(r), Column([r], ExtraOf(key))) {
      Alone(r, ExtraOf(key));
    }
    forall txid
      ensures IsFirst(RoleOf(txid)(r), Column([r], RoleOf(txid)))
      ensures IsFirst(FeeOf(txid)(r), Column([r], FeeOf(txid)))
      ensures IsFirst(HeightOf(txid)(r), Column([r], HeightOf(txid)))
    {
      Alone(r, RoleOf(txid));
      Alone(r, FeeOf(txid));
      Alone(r, HeightOf(txid));
    }
    Alone(r, FundingOf);
    Alone(r, ReasonOf);
    Alone(r, TimelockOf);
    Alone(r, CompletionOf);
    Alone(r, AmountOf);
    Alone(r, ClaimableOf);
    Alone(r, TypeOf);
    Alone(r, InitiatorOf);
    Alone(r, ResolutionOf);
    assert [r][0] == r;
  }

  lemma Alone<T(!new)>(r: Record, fact: Record -> Option<T>)
    ensures IsFirst(fact(r), Column([r], fact)) && IsLast(fact(r), Column([r], fact))
  {
    assert Column([r], fact)[0] == fact(r);
  }

  /**
   * Whatever records are merged in, one after the other: the identifying facts are those of the first record that has them,
   * the measurements those of the last, and each transaction has the role, fee and height that were told of it first.
   */
  lemma {:induction false} MergesDecide(base: Record, incoming: seq<Record>)
    ensures var r, all := MergeMany(base, incoming), [base] + incoming;
            && r.channelId == base.channelId
            && FirstFacts(r, all) && LastFacts(r, all) && JointFacts(r, all)
            && ((forall x | x in all :: Distinct(x.txs)) ==> Distinct(r.txs) && TxFacts(r, all))
  {
    hide FirstFacts, LastFacts, JointFacts, TxFacts, Distinct, MergeTxs, MergeExtras;
    var all := [base] + incoming;
    if incoming == [] {
      OneRecord(base);
      assert all == [base];
    } else {
      var n := |incoming| - 1;
      var before, r, x := [base] + incoming[..n], MergeMany(base, incoming[..n]), incoming[n];
      MergesDecide(base, incoming[..n]);
      assert all == before + [x];
      FirstFactsOfMore(r, before, x);
      LastFactsOfMore(r, before, x);
      JointFactsOfMore(r, before, x);
      if forall y | y in all :: Distinct(y.txs) {
        assert x in all && forall y | y in before :: y in all;
        TxFactsOfMore(r, before, x);
        MergedDistinct(r, x);
      }
    }
  }

  // ----- what is shown -----

  /** The first sweep of the record has not been confirmed. */
  predicate Sweeping(r: Record)
  {
    exists i :: 0 <= i < |r.txs| && r.txs[i].role == Sweep && r.txs[i].confirmedAt.None?
                && forall j | 0 <= j < i :: r.txs[j].role != Sweep
  }

  predicate Swept(r: Record) { exists i :: 0 <= i < |r.txs| && r.txs[i].role == Sweep }

  /** The funds are locked as far as one can tell. */
  predicate Locked(r: Record, height: Option<int>)
  {
    r.claimableAt.Some? && (height.Some? ==> r.claimableAt.value > height.value)
  }

  /**
   * The status is read off the facts: completion first, and its resolution; then a sweep on its way, a timelock that still runs,
   * a sweep that is through, and otherwise the close itself.
   */
  lemma StatusSays(r: Record, height: Option<int>)
    ensures var s := DeriveStatus(r, height);
            && (s == ResolvedUnverified <==> r.completedAt.Some? && r.resolution == Some(Unverified))
            && (s == Complete <==> r.completedAt.Some? && r.resolution != Some(Unverified))
            && (s == Returning <==> r.completedAt.None? && (Sweeping(r) || (Swept(r) && !Locked(r, height))))
            && (s == WaitingTimelock <==> r.completedAt.None? && !Sweeping(r) && Locked(r, height))
            && (s == StatusClosing <==> r.completedAt.None? && !Swept(r) && !Locked(r, height))
  {
    FirstSweepIs(r.txs);
  }

  lemma {:induction false} FirstSweepIs(txs: seq<RecordTx>)
    ensures match FirstSweep(txs)
            case None => forall i | 0 <= i < |txs| :: txs[i].role != Sweep
            case Some(t) => exists i :: 0 <= i < |txs| && txs[i] == t && t.role == Sweep
                                        && forall j | 0 <= j < i :: txs[j].role != Sweep
  {
    if txs != [] && txs[0].role != Sweep {
      FirstSweepIs(txs[1..]);
      if FirstSweep(txs).Some? {
        var i :| 0 <= i < |txs[1..]| && txs[1..][i] == FirstSweep(txs).value
                 && forall j | 0 <= j < i :: txs[1..][j].role != Sweep;
        assert txs[i + 1] == txs[1..][i];
        assert forall j | 0 < j < i + 1 :: txs[j] == txs[1..][j - 1];
      }
    }
  }

  // ----- two maps of records -----

  /** The record of two: all its facts are decided by the first and the second in that order. */
  ghost predicate Decided(r: Record, first: Record, second: Record)
  {
    && r.channelId == first.channelId
    && FirstFacts(r, [first, second]) && LastFacts(r, [first, second]) && JointFacts(r, [first, second])
    && (Distinct(first.txs) && Distinct(second.txs) ==> Distinct(r.txs) && TxFacts(r, [first, second]))
  }

  lemma MergeDecided(a: Record, b: Record)
    ensures Decided(Merge(a, b), a, b)
  {
    hide FirstFacts, LastFacts, JointFacts, TxFacts, Distinct, Merge;
    MergesDecide(a, [b]);
    assert [a] + [b] == [a, b] && [b][..0] == [];
    assert MergeMany(a, [b]) == Merge(a, b);
  }

  /** A merged map has the records of both; where both have one, the target's leads and the source's measurements count. */
  lemma MapsDecided(target: Records, source: Records, id: string)
    ensures var m := MergeMaps(target, source);
            && (id in m <==> id in target || id in source)
            && (id in target && id in source ==> Decided(m[id], target[id], source[id]))
            && (id in target && id !in source ==> m[id] == target[id])
            && (id !in target && id in source ==> m[id] == source[id])
  {
    hide Decided, Merge;
    if id in target && id in source {
      MergeDecided(target[id], source[id]);
    }
  }

  /** Facts that are upserted meet the record at hand in the same way, and no other record changes. */
  lemma UpsertDecided(records: Records, r: Record, id: string)
    ensures var m := UpsertInto(records, r);
            && (id in m <==> id in records || id == r.channelId)
            && (id in records && id != r.channelId ==> m[id] == records[id])
            && (if r.channelId in records then Decided(m[r.channelId], records[r.channelId], r) else m[r.channelId] == r)
  {
    hide Decided, Merge;
    if r.channelId in records {
      MergeDecided(records[r.channelId], r);
    }
  }
}
