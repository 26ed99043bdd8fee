/**
 * Close records: the facts kept about a channel close and their field-wise
 * merge. `base` is the record at hand, `incoming` brings new facts.
 */
module CloseRecord {
  import opened Results
  import opened Arithmetic

  datatype Role = Closing | Commitment | AnchorCpfp | HtlcClaim | Sweep
  datatype CloseType = Coop | Force | UnknownType
  datatype Initiator = Local | Remote | UnknownInitiator
  datatype Resolution = Verified | Unverified
  datatype Outpoint = Outpoint(txid: string, vout: nat)
  datatype RecordTx = RecordTx(txid: string, role: Role, fee: Option<int>, confirmedAt: Option<int>)

  datatype Record = Record(
    schemaVersion: int,
    channelId: string,
    fundingTxo: Option<Outpoint>,
    closeType: CloseType,
    initiator: Initiator,
    closureReason: Option<string>,
    txs: seq<RecordTx>,
    expectedAmount: Option<int>,
    timelockBlocks: Option<int>,
    claimableAt: Option<int>,
    createdAt: int,
    completedAt: Option<int>,
    resolution: Option<Resolution>,
    extras: Option<map<string, string>>)

  datatype Status = StatusClosing | WaitingTimelock | Returning | Complete | ResolvedUnverified

  // ----- transactions by txid -----

  /** `a ?? b`. */
  function OrElse<T>(a: Option<T>, b: Option<T>): Option<T> { if a.Some? then a else b }

  /** Where a txid sits in the list, or its length. */
  function Find(txs: seq<RecordTx>, txid: string): (k: nat)
    ensures k <= |txs|
    ensures k < |txs| ==> txs[k].txid == txid
    ensures forall i | 0 <= i < k :: txs[i].txid != txid
  {
    if txs == [] then 0
    else if txs[0].txid == txid then 0
    else 1 + Find(txs[1..], txid)
  }

  function FillTx(existing: RecordTx, tx: RecordTx): RecordTx
  {
    RecordTx(existing.txid, existing.role, OrElse(existing.fee, tx.fee), OrElse(existing.confirmedAt, tx.confirmedAt))
  }

  /** `Map.set` of the whole transaction: replaced in place, or added at the end. */
  function Put(txs: seq<RecordTx>, tx: RecordTx): seq<RecordTx>
  {
    var k := Find(txs, tx.txid);
    if k < |txs| then txs[k := tx] else txs + [tx]
  }

  /** Add a transaction, or fill the fields its entry lacks. */
  function Fill(txs: seq<RecordTx>, tx: RecordTx): seq<RecordTx>
  {
    FillAt(txs, Find(txs, tx.txid), tx)
  }

  function FillAt(txs: seq<RecordTx>, k: nat, tx: RecordTx): seq<RecordTx>
    requires k <= |txs|
  {
    if k < |txs| then txs[k := FillTx(txs[k], tx)] else txs + [tx]
  }

  function PutAll(onto: seq<RecordTx>, txs: seq<RecordTx>): seq<RecordTx>
  {
    if txs == [] then onto else Put(PutAll(onto, txs[..|txs| - 1]), txs[|txs| - 1])
  }

  function FillAll(onto: seq<RecordTx>, txs: seq<RecordTx>): seq<RecordTx>
  {
    if txs == [] then onto else Fill(FillAll(onto, txs[..|txs| - 1]), txs[|txs| - 1])
  }

  function MergeTxs(base: seq<RecordTx>, incoming: seq<RecordTx>): seq<RecordTx>
  {
    FillAll(PutAll([], base), incoming)
  }

  /** The two loops over a Map keyed by txid. */
  method CollectTxs(base: seq<RecordTx>, incoming: seq<RecordTx>) returns (txs: seq<RecordTx>)
    ensures txs == MergeTxs(base, incoming)
  {
    txs := [];
    for i := 0 to |base|
      invariant txs == PutAll([], base[..i])
    {
      assert base[..i + 1][..i] == base[..i];
      txs := Put(txs, base[i]);
    }
    assert base[..|base|] == base;
    for i := 0 to |incoming|
      invariant txs == FillAll(PutAll([], base), incoming[..i])
    {
      assert incoming[..i + 1][..i] == incoming[..i];
      var tx := incoming[i];
      var k := Find(txs, tx.txid);
      if k == |txs| {
        txs := txs + [tx];
      } else {
        var existing := txs[k];
        txs := txs[k := RecordTx(existing.txid, existing.role, OrElse(existing.fee, tx.fee),
                                 OrElse(existing.confirmedAt, tx.confirmedAt))];
      }
    }
    assert incoming[..|incoming|] == incoming;
  }

  // ----- the merge -----

  function MergeResolution(base: Option<Resolution>, incoming: Option<Resolution>): Option<Resolution>
  {
    if base == Some(Verified) || incoming == Some(Verified) then Some(Verified) else OrElse(base, incoming)
  }

  function MergeExtras(base: Option<map<string, string>>, incoming: Option<map<string, string>>): Option<map<string, string>>
  {
    match (base, incoming)
    case (Some(b), Some(i)) => Some(i + b)
    case (Some(b), None) => Some(b)
    case (None, _) => incoming
  }

  function Merge(base: Record, incoming: Record): Record
  {
    Record(
      Max(base.schemaVersion, incoming.schemaVersion),
      base.channelId,
      OrElse(base.fundingTxo, incoming.fundingTxo),
      if incoming.closeType != UnknownType then incoming.closeType else base.closeType,
      if incoming.initiator != UnknownInitiator then incoming.initiator else base.initiator,
      OrElse(base.closureReason, incoming.closureReason),
      MergeTxs(base.txs, incoming.txs),
      OrElse(incoming.expectedAmount, base.expectedAmount),
      OrElse(base.timelockBlocks, incoming.timelockBlocks),
      OrElse(incoming.claimableAt, base.claimableAt),
      Min(base.createdAt, incoming.createdAt),
      OrElse(base.completedAt, incoming.completedAt),
      MergeResolution(base.resolution, incoming.resolution),
      MergeExtras(base.extras, incoming.extras))
  }

  method MergeCloseRecords(base: Record, incoming: Record) returns (r: Record)
    ensures r == Merge(base, incoming)
  {
    var txs := CollectTxs(base.txs, incoming.txs);
    r := Merge(base.(txs := []), incoming.(txs := [])).(txs := txs);
  }

  function FirstSweep(txs: seq<RecordTx>): Option<RecordTx>
  {
    if txs == [] then None else if txs[0].role == Sweep then Some(txs[0]) else FirstSweep(txs[1..])
  }

  function DeriveStatus(r: Record, currentHeight: Option<int>): Status
  {
    if r.completedAt.Some? then
      if r.resolution == Some(Unverified) then ResolvedUnverified else Complete
    else
      var sweep := FirstSweep(r.txs);
      if sweep.Some? && sweep.value.confirmedAt.None? then Returning
      else if r.claimableAt.Some? && (currentHeight.None? || r.claimableAt.value > currentHeight.value) then WaitingTimelock
      else if sweep.Some? then Returning
      else StatusClosing
  }

  // ----- lists with distinct txids -----

  ghost predicate Distinct(txs: seq<RecordTx>)
  {
    forall i, j | 0 <= i < j < |txs| :: txs[i].txid != txs[j].txid
  }

  lemma {:induction false} FillAllDistinct(onto: seq<RecordTx>, txs: seq<RecordTx>)
    requires Distinct(onto)
    ensures Distinct(FillAll(onto, txs))
  {
    if txs != [] {
      FillAllDistinct(onto, txs[..|txs| - 1]);
    }
  }

  lemma {:induction false} PutAllDistinct(onto: seq<RecordTx>, txs: seq<RecordTx>)
    requires Distinct(onto)
    ensures Distinct(PutAll(onto, txs))
  {
    if txs != [] {
      PutAllDistinct(onto, txs[..|txs| - 1]);
    }
  }

  /** On distinct txids neither loop changes the list it starts from nothing with. */
  lemma {:induction false} DistinctIsNormal(txs: seq<RecordTx>)
    requires Distinct(txs)
    ensures PutAll([], txs) == txs && FillAll([], txs) == txs
  {
    if txs != [] {
      var init, last := txs[..|txs| - 1], txs[|txs| - 1];
      DistinctIsNormal(init);
      FindIs(init, last.txid, |init|);
      assert txs == init + [last];
      hide Distinct, Find, FillTx;
    }
  }

  /** A merged record always has distinct txids. */
  lemma MergedDistinct(base: Record, incoming: Record)
    ensures Distinct(Merge(base, incoming).txs)
  {
    PutAllDistinct([], base.txs);
    FillAllDistinct(PutAll([], base.txs), incoming.txs);
  }

  /** Filling two facts of one transaction in turn is filling their combination. */
  lemma FillFillSame(a: seq<RecordTx>, t: RecordTx, u: RecordTx)
    requires t.txid == u.txid
    ensures Fill(Fill(a, t), u) == Fill(a, FillTx(t, u))
  {
    FindIs(Fill(a, t), u.txid, Find(a, t.txid));
  }

  /** Filling a transaction that is already there commutes with filling any other. */
  lemma FillFillOther(a: seq<RecordTx>, t: RecordTx, u: RecordTx)
    requires Distinct(a)
    requires t.txid != u.txid && Find(a, u.txid) < |a|
    ensures Fill(Fill(a, t), u) == Fill(Fill(a, u), t)
  {
    var k, m := Find(a, t.txid), Find(a, u.txid);
    FindIs(FillAt(a, k, t), u.txid, m);
    FindIs(FillAt(a, m, u), t.txid, k);
    FillAtCommutes(a, k, t, m, u);
  }

  lemma FillAtCommutes(a: seq<RecordTx>, k: nat, t: RecordTx, m: nat, u: RecordTx)
    requires k <= |a| && m < |a| && k != m
    ensures FillAt(FillAt(a, k, t), m, u) == FillAt(FillAt(a, m, u), k, t)
  {
  }

  lemma FillFinds(a: seq<RecordTx>, t: RecordTx, txid: string)
    requires t.txid == txid || Find(a, txid) < |a|
    ensures Find(Fill(a, t), txid) < |Fill(a, t)|
  {
    var k := Find(a, t.txid);
    assert Fill(a, t)[k].txid == t.txid;
    assert t.txid == txid || Fill(a, t)[Find(a, txid)].txid == txid;
  }

  lemma FindIs(txs: seq<RecordTx>, txid: string, k: nat)
    requires k < |txs| ==> txs[k].txid == txid
    requires k <= |txs|
    requires forall i | 0 <= i < k :: txs[i].txid != txid
    ensures Find(txs, txid) == k
  {
  }

  /** Every txid of the filled-in list is found in the result. */
  lemma {:induction false} FillAllFinds(a: seq<RecordTx>, m: seq<RecordTx>, txid: string)
    requires Find(m, txid) < |m|
    ensures Find(FillAll(a, m), txid) < |FillAll(a, m)|
  {
    hide Fill;
    var n := |m| - 1;
    var k := Find(m, txid);
    if k < n {
      FindIs(m[..n], txid, k);
      FillAllFinds(a, m[..n], txid);
    }
    FillFinds(FillAll(a, m[..n]), m[n], txid);
  }

  /** Filling a list whose entry k was filled with u is filling the list, then u. */
  lemma {:induction false} FillUpdated(a: seq<RecordTx>, m: seq<RecordTx>, k: nat, u: RecordTx)
    requires Distinct(a) && Distinct(m) && k < |m| && m[k].txid == u.txid
    ensures FillAll(a, m[k := FillTx(m[k], u)]) == Fill(FillAll(a, m), u)
  {
    var n := |m| - 1;
    var updated := m[k := FillTx(m[k], u)];
    FillAllDistinct(a, m[..n]);
    if k == n {
      assert updated[..n] == m[..n];
      FillFillSame(FillAll(a, m[..n]), m[n], u);
    } else {
      assert updated[..n] == m[..n][k := FillTx(m[..n][k], u)];
      FillUpdated(a, m[..n], k, u);
      FindIs(m[..n], u.txid, k);
      FillAllFinds(a, m[..n], u.txid);
      FillFillOther(FillAll(a, m[..n]), m[n], u);
    }
  }

  /** Filling is associative when the middle list has distinct txids. */
  lemma {:induction false} FillAssociative(a: seq<RecordTx>, b: seq<RecordTx>, c: seq<RecordTx>)
    requires Distinct(a) && Distinct(b)
    ensures FillAll(FillAll(a, b), c) == FillAll(a, FillAll(b, c))
  {
    if c != [] {
      var n := |c| - 1;
      var m, u := FillAll(b, c[..n]), c[n];
      FillAssociative(a, b, c[..n]);
      FillAllDistinct(b, c[..n]);
      var k := Find(m, u.txid);
      if k < |m| {
        FillUpdated(a, m, k, u);
      } else {
        assert (m + [u])[..|m|] == m;
      }
    }
  }

  /** Filling in a list with repeated txids is filling in its own filled-in form. */
  lemma FillNormal(a: seq<RecordTx>, b: seq<RecordTx>)
    requires Distinct(a)
    ensures FillAll(a, b) == FillAll(a, FillAll([], b))
  {
    FillAssociative(a, [], b);
  }

  // ----- the laws of the merge -----

  /** A record's repeated txids carry no conflict: both loops of the merge reduce them alike. */
  ghost predicate Consistent(r: Record)
  {
    PutAll([], r.txs) == FillAll([], r.txs)
  }

  lemma DistinctIsConsistent(r: Record)
    requires Distinct(r.txs)
    ensures Consistent(r)
  {
    DistinctIsNormal(r.txs);
  }

  lemma TxsAssociative(a: seq<RecordTx>, b: seq<RecordTx>, c: seq<RecordTx>)
    requires PutAll([], b) == FillAll([], b)
    ensures MergeTxs(MergeTxs(a, b), c) == MergeTxs(a, MergeTxs(b, c))
  {
    var a', b' := PutAll([], a), PutAll([], b);
    PutAllDistinct([], a);
    PutAllDistinct([], b);
    FillAllDistinct(a', b);
    DistinctIsNormal(FillAll(a', b));
    FillNormal(a', b);
    FillAssociative(a', b', c);
  }

  lemma MergeAssociative(a: Record, b: Record, c: Record)
    requires Consistent(b)
    ensures Merge(Merge(a, b), c) == Merge(a, Merge(b, c))
  {
    TxsAssociative(a.txs, b.txs, c.txs);
    ExtrasAssociative(a.extras, b.extras, c.extras);
  }

  /** In particular around every record with one entry for each txid, as all merged records have. */
  lemma DistinctMergeAssociative(a: Record, b: Record, c: Record)
    requires Distinct(b.txs)
    ensures Merge(Merge(a, b), c) == Merge(a, Merge(b, c))
  {
    DistinctIsConsistent(b);
    MergeAssociative(a, b, c);
  }

  lemma ExtrasAssociative(a: Option<map<string, string>>, b: Option<map<string, string>>, c: Option<map<string, string>>)
    ensures MergeExtras(MergeExtras(a, b), c) == MergeExtras(a, MergeExtras(b, c))
  {
    if a.Some? && b.Some? && c.Some? {
      assert c.value + (b.value + a.value) == (c.value + b.value) + a.value;
    }
  }

  function Blank(channelId: string): Record
  {
    Record(0, channelId, None, UnknownType, UnknownInitiator, None, [], None, None, None, 0, None, None, None)
  }

  /** Exactly which middle records merge associatively with everything on either side. */
  lemma AssociativeIff(b: Record)
    ensures Consistent(b) <==> forall a, c :: Merge(Merge(a, b), c) == Merge(a, Merge(b, c))
  {
    if Consistent(b) {
      forall a, c ensures Merge(Merge(a, b), c) == Merge(a, Merge(b, c)) {
        MergeAssociative(a, b, c);
      }
    } else {
      var e := Blank(b.channelId);
      PutAllDistinct([], b.txs);
      FillAllDistinct([], b.txs);
      DistinctIsNormal(PutAll([], b.txs));
      DistinctIsNormal(FillAll([], b.txs));
      assert Merge(Merge(e, b), e).txs == FillAll([], b.txs);
      assert Merge(e, Merge(b, e)).txs == PutAll([], b.txs);
    }
  }

  /** Two entries for one txid that disagree on the fee: the order of merging decides which is kept. */
  lemma ConflictingDuplicatesBreakAssociativity()
    ensures exists a, b, c :: Merge(Merge(a, b), c) != Merge(a, Merge(b, c))
  {
    var t, u := RecordTx("t", Closing, Some(1), None), RecordTx("t", Closing, Some(2), None);
    var b := Blank("c").(txs := [t, u]);
    TwoEntries(t, u);
    assert !Consistent(b) by {
      assert PutAll([], b.txs)[0].fee != FillAll([], b.txs)[0].fee;
    }
    hide Merge, PutAll, FillAll, Consistent;
    AssociativeIff(b);
  }

  /** Of two entries for one txid the first loop of a merge keeps the last, the second fills in the first. */
  lemma TwoEntries(t: RecordTx, u: RecordTx)
    requires t.txid == u.txid
    ensures PutAll([], [t, u]) == [u]
    ensures FillAll([], [t, u]) == [FillTx(t, u)]
  {
    OneEntry(t);
    assert [t, u][..1] == [t];
    FindIs([t], u.txid, 0);
  }

  lemma OneEntry(t: RecordTx)
    ensures PutAll([], [t]) == [t] && FillAll([], [t]) == [t]
  {
    assert [t][..0] == [];
  }

  lemma {:induction false} FillSelf(txs: seq<RecordTx>, n: nat)
    requires Distinct(txs) && n <= |txs|
    ensures FillAll(txs, txs[..n]) == txs
  {
    if n > 0 {
      FillSelf(txs, n - 1);
      assert txs[..n][..n - 1] == txs[..n - 1];
      FindIs(txs, txs[n - 1].txid, n - 1);
    }
  }

  /** Seeing the same facts again changes nothing. */
  lemma MergeIdempotent(r: Record)
    requires Distinct(r.txs)
    ensures Merge(r, r) == r
  {
    DistinctIsNormal(r.txs);
    FillSelf(r.txs, |r.txs|);
    assert r.txs[..|r.txs|] == r.txs;
    if r.extras.Some? {
      assert r.extras.value + r.extras.value == r.extras.value;
    }
  }

  // ----- what is known is never forgotten -----

  function Lookup(txs: seq<RecordTx>, txid: string): Option<RecordTx>
  {
    var k := Find(txs, txid);
    if k < |txs| then Some(txs[k]) else None
  }

  ghost predicate KnowsOption<T(!new)>(a: Option<T>, b: Option<T>) { b.Some? ==> a.Some? }

  /** One entry answers everything another entry of the same txid answers. */
  ghost predicate Covers(a: RecordTx, b: RecordTx)
  {
    a.txid == b.txid && KnowsOption(a.fee, b.fee) && KnowsOption(a.confirmedAt, b.confirmedAt)
  }

  ghost predicate HasTx(a: seq<RecordTx>, t: RecordTx) { exists k :: 0 <= k < |a| && Covers(a[k], t) }

  /** Each entry of the second list is covered by one of the first. */
  ghost predicate KnowsTxs(a: seq<RecordTx>, b: seq<RecordTx>) { forall i | 0 <= i < |b| :: HasTx(a, b[i]) }

  /** `a` holds every fact `b` holds: the same questions have an answer, and none is weaker. */
  ghost predicate Knows(a: Record, b: Record)
  {
    && a.schemaVersion >= b.schemaVersion
    && KnowsOption(a.fundingTxo, b.fundingTxo)
    && (b.closeType != UnknownType ==> a.closeType != UnknownType)
    && (b.initiator != UnknownInitiator ==> a.initiator != UnknownInitiator)
    && KnowsOption(a.closureReason, b.closureReason)
    && KnowsTxs(a.txs, b.txs)
    && KnowsOption(a.expectedAmount, b.expectedAmount)
    && KnowsOption(a.timelockBlocks, b.timelockBlocks)
    && KnowsOption(a.claimableAt, b.claimableAt)
    && a.createdAt <= b.createdAt
    && KnowsOption(a.completedAt, b.completedAt)
    && KnowsOption(a.resolution, b.resolution)
    && (b.resolution == Some(Verified) ==> a.resolution == Some(Verified))
    && (b.extras.Some? ==> a.extras.Some? && b.extras.value.Keys <= a.extras.value.Keys)
  }

  lemma HasOwn(a: seq<RecordTx>)
    ensures KnowsTxs(a, a)
  {
    forall i | 0 <= i < |a| ensures HasTx(a, a[i]) {
      assert Covers(a[i], a[i]);
    }
  }

  lemma KnowsTxsTransitive(a: seq<RecordTx>, b: seq<RecordTx>, c: seq<RecordTx>)
    requires KnowsTxs(a, b) && KnowsTxs(b, c)
    ensures KnowsTxs(a, c)
  {
    forall i | 0 <= i < |c| ensures HasTx(a, c[i]) {
      var j :| 0 <= j < |b| && Covers(b[j], c[i]);
      assert HasTx(a, b[j]);
      var k :| 0 <= k < |a| && Covers(a[k], b[j]);
      assert Covers(a[k], c[i]);
    }
  }

  lemma KnowsReflexive(a: Record)
    ensures Knows(a, a)
  {
    HasOwn(a.txs);
  }

  lemma KnowsTransitive(a: Record, b: Record, c: Record)
    requires Knows(a, b) && Knows(b, c)
    ensures Knows(a, c)
  {
    KnowsTxsTransitive(a.txs, b.txs, c.txs);
  }

  lemma FillKnows(a: seq<RecordTx>, t: RecordTx)
    ensures KnowsTxs(Fill(a, t), a) && HasTx(Fill(a, t), t)
  {
    var r, k := Fill(a, t), Find(a, t.txid);
    forall i | 0 <= i < |a| ensures HasTx(r, a[i]) {
      assert Covers(r[i], a[i]);
    }
    assert Covers(r[k], t);
  }

  lemma KnowsOneMore(a: seq<RecordTx>, b: seq<RecordTx>)
    requires b != []
    requires KnowsTxs(a, b[..|b| - 1]) && HasTx(a, b[|b| - 1])
    ensures KnowsTxs(a, b)
  {
    forall i | 0 <= i < |b| ensures HasTx(a, b[i]) {
      assert i < |b| - 1 ==> b[..|b| - 1][i] == b[i];
    }
  }

  lemma {:induction false} FillAllKnows(a: seq<RecordTx>, txs: seq<RecordTx>)
    ensures KnowsTxs(FillAll(a, txs), a) && KnowsTxs(FillAll(a, txs), txs)
  {
    if txs == [] {
      HasOwn(a);
    } else {
      var n := |txs| - 1;
      var before, after := FillAll(a, txs[..n]), FillAll(a, txs);
      FillAllKnows(a, txs[..n]);
      FillKnows(before, txs[n]);
      KnowsTxsTransitive(after, before, a);
      KnowsTxsTransitive(after, before, txs[..n]);
      KnowsOneMore(after, txs);
    }
  }

  /** A merge knows everything both records knew; a base with distinct txids loses nothing at all. */
  lemma MergeKnowsBoth(base: Record, incoming: Record)
    ensures Knows(Merge(base, incoming), incoming)
    ensures Distinct(base.txs) ==> Knows(Merge(base, incoming), base)
  {
    FillAllKnows(PutAll([], base.txs), incoming.txs);
    if Distinct(base.txs) {
      DistinctIsNormal(base.txs);
    }
  }

  // ----- along any sequence of merges -----

  /** The record after merging in each of `incoming` in turn. */
  function MergeMany(base: Record, incoming: seq<Record>): Record
  {
    if incoming == [] then base else Merge(MergeMany(base, incoming[..|incoming| - 1]), incoming[|incoming| - 1])
  }

  lemma GatheredDistinct(first: Record, rest: seq<Record>)
    requires Distinct(first.txs)
    ensures Distinct(MergeMany(first, rest).txs)
  {
    if rest != [] {
      MergedDistinct(MergeMany(first, rest[..|rest| - 1]), rest[|rest| - 1]);
    }
    hide Distinct, Merge;
  }

  /** Merging records in one by one is merging them in at once after they were merged with each other. */
  lemma {:induction false} GatheringFirst(base: Record, first: Record, rest: seq<Record>)
    requires Distinct(first.txs)
    ensures MergeMany(base, [first] + rest) == Merge(base, MergeMany(first, rest))
  {
    hide Merge, Distinct;
    var all := [first] + rest;
    if rest == [] {
      assert all[..0] == [] && all[0] == first;
    } else {
      var n := |rest| - 1;
      assert all[..n + 1] == [first] + rest[..n] && all[n + 1] == rest[n];
      GatheringFirst(base, first, rest[..n]);
      GatheredDistinct(first, rest[..n]);
      DistinctMergeAssociative(base, MergeMany(first, rest[..n]), rest[n]);
    }
  }

  /** The set-once facts of a transaction keep their value when the list is filled in further. */
  lemma {:induction false} FillAllKeepsFacts(a: seq<RecordTx>, txs: seq<RecordTx>, txid: string)
    requires Lookup(a, txid).Some?
    ensures var before, after := Lookup(a, txid).value, Lookup(FillAll(a, txs), txid);
            && after.Some?
            && after.value.role == before.role
            && (before.fee.Some? ==> after.value.fee == before.fee)
            && (before.confirmedAt.Some? ==> after.value.confirmedAt == before.confirmedAt)
  {
    if txs != [] {
      var n := |txs| - 1;
      FillAllKeepsFacts(a, txs[..n], txid);
      var m := FillAll(a, txs[..n]);
      FindIs(Fill(m, txs[n]), txid, Find(m, txid));
    }
  }

  /**
   * However many records are merged in, in whatever order: txids stay, a transaction's role, fee and
   * confirmation height never change once known, the completion time never changes once set,
   * and the creation time never grows.
   */
  lemma {:induction false} MergesKeepFacts(base: Record, incoming: seq<Record>, txid: string)
    requires Distinct(base.txs)
    ensures var r := MergeMany(base, incoming);
            && Distinct(r.txs)
            && Knows(r, base)
            && r.channelId == base.channelId
            && r.createdAt <= base.createdAt
            && (base.completedAt.Some? ==> r.completedAt == base.completedAt)
            && (base.fundingTxo.Some? ==> r.fundingTxo == base.fundingTxo)
            && (base.resolution == Some(Verified) ==> r.resolution == Some(Verified))
    ensures Lookup(base.txs, txid).Some? ==>
              var before, after := Lookup(base.txs, txid).value, Lookup(MergeMany(base, incoming).txs, txid);
              && after.Some?
              && after.value.role == before.role
              && (before.fee.Some? ==> after.value.fee == before.fee)
              && (before.confirmedAt.Some? ==> after.value.confirmedAt == before.confirmedAt)
  {
    if incoming == [] {
      KnowsReflexive(base);
    } else {
      var n := |incoming| - 1;
      var m := MergeMany(base, incoming[..n]);
      MergesKeepFacts(base, incoming[..n], txid);
      MergedDistinct(m, incoming[n]);
      MergeKnowsBoth(m, incoming[n]);
      KnowsTransitive(Merge(m, incoming[n]), m, base);
      DistinctIsNormal(m.txs);
      if Lookup(m.txs, txid).Some? {
        FillAllKeepsFacts(m.txs, incoming[n].txs, txid);
      }
    }
  }

  /**
   * A complete record becomes "resolved, unverified" under a merge exactly when it carries no
   * resolution of its own and the incoming record brings an unverified one. A verified record
   * therefore stays complete whatever is merged in; a record without a resolution may not.
   */
  lemma CompleteDowngradesIff(base: Record, incoming: Record, height: Option<int>)
    requires DeriveStatus(base, height) == Complete
    ensures DeriveStatus(Merge(base, incoming), height) == ResolvedUnverified
            <==> base.resolution.None? && incoming.resolution == Some(Unverified)
    ensures DeriveStatus(Merge(base, incoming), height) in {Complete, ResolvedUnverified}
  {
  }

  /** A completion comes with its resolution, and no resolution without a completion. */
  predicate Paired(r: Record) { r.completedAt.Some? <==> r.resolution.Some? }

  lemma {:induction false} VerifiedStaysComplete(base: Record, incoming: seq<Record>, height: Option<int>)
    requires base.completedAt.Some? && base.resolution == Some(Verified)
    ensures DeriveStatus(MergeMany(base, incoming), height) == Complete
    ensures MergeMany(base, incoming).completedAt.Some? && MergeMany(base, incoming).resolution == Some(Verified)
  {
    if incoming != [] {
      VerifiedStaysComplete(base, incoming[..|incoming| - 1], height);
    }
  }

  /** The downgrade does happen: completed without a resolution, then merged with an unverified one. */
  lemma CompleteCanDowngrade()
    ensures exists base, incoming :: DeriveStatus(base, None) == Complete
                                     && DeriveStatus(Merge(base, incoming), None) == ResolvedUnverified
  {
    var base := Blank("c").(completedAt := Some(7));
    var incoming := Blank("c").(completedAt := Some(8), resolution := Some(Unverified));
    CompleteDowngradesIff(base, incoming, None);
  }
}
