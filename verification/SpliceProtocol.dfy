/**
 * The life of a splice: the saved state of the controller, its changes, and
 * runs of saves, submissions to LDK and crashes. Each commit starts a new epoch,
 * because the same reviewed quote can be committed again after a failure.
 */
module SpliceProtocol {
  import opened Results
  import opened StableStore
  import opened CoinSums
  import opened SpliceSelection
  import Funding = SpliceFunding

  type Id = string
  type Outpoint = Funding.Outpoint

  /** A funding quote: what the user reviewed, for which channel, and until when it may be committed. */
  datatype Quote = Quote(id: Id, channelId: Id, userChannelId: string, providerId: string, review: Funding.Review,
                         feeRate: int, expiresAt: int)

  datatype Status = Prepared | Negotiating | Signed | Awaiting | Complete | Failed
  datatype Conversion = NotYet | Attempted | Done

  datatype Splice = Splice(quote: Quote, status: Status, signedTx: Option<string>, unsignedHash: Option<Id>,
                           newFunding: Option<Outpoint>, newChannelId: Option<Id>, conversion: Conversion)

  predicate IsPending(s: Option<Splice>) { s.Some? && s.value.status != Complete && s.value.status != Failed }

  function Inputs(s: Option<Splice>): set<Outpoint>
  {
    if IsPending(s) then set c | c in s.value.quote.review.inputs :: c.outpoint else {}
  }

  // ----- the changes -----

  datatype Change =
    | Commit(quote: Quote)
    | RefusedByLdk
    | Negotiate
    | CancelUnsigned
    | Sign(tx: string, hash: Id)
    | MarkPending(outpoint: Outpoint)
    | Release(inputs: seq<Outpoint>)
    | Finish(newChannelId: Id, funding: Outpoint)
    | AttemptConversion
    | ConversionDone

  /** What the controller has checked when it saves the change. */
  predicate Applicable(c: Change, s: Option<Splice>)
  {
    match c
    case Commit(_) => !IsPending(s)
    case RefusedByLdk => s.Some? && s.value.status == Prepared
    case Negotiate => s.Some? && s.value.status == Prepared
    case CancelUnsigned => IsPending(s) && s.value.signedTx.None?
    case Sign(_, hash) =>
      IsPending(s) && s.value.signedTx.None? && (s.value.unsignedHash.None? || s.value.unsignedHash == Some(hash))
    case MarkPending(_) => IsPending(s)
    case Release(inputs) => IsPending(s) && forall c | c in s.value.quote.review.inputs :: c.outpoint in inputs
    case Finish(_, funding) => IsPending(s) && s.value.newFunding == Some(funding)
    case AttemptConversion => s.Some? && s.value.status == Complete && s.value.conversion == NotYet
    case ConversionDone => s.Some? && s.value.status == Complete && s.value.conversion == Attempted
  }

  function Apply(c: Change, s: Option<Splice>): Option<Splice>
    requires Applicable(c, s)
  {
    match c
    case Commit(quote) => Some(Splice(quote, Prepared, None, None, None, None, NotYet))
    case RefusedByLdk => Some(s.value.(status := Failed))
    case Negotiate => Some(s.value.(status := Negotiating))
    case CancelUnsigned => Some(s.value.(status := Failed))
    case Sign(tx, hash) => Some(s.value.(status := Signed, signedTx := Some(tx), unsignedHash := Some(hash)))
    case MarkPending(outpoint) => Some(s.value.(status := Awaiting, newFunding := Some(outpoint)))
    case Release(_) => Some(s.value.(status := Failed))
    case Finish(newChannelId, _) => Some(s.value.(status := Complete, newChannelId := Some(newChannelId)))
    case AttemptConversion => Some(s.value.(conversion := Attempted))
    case ConversionDone => Some(s.value.(conversion := Done))
  }

  // ----- what a splice takes from the wallet -----

  /** The wallet's coins counted when the funding was quoted, and what the signed transaction costs the wallet. */
  datatype Outlay = Outlay(counted: seq<Funding.Coin>, loss: int)

  const NOTHING := Outlay([], 0)

  /** The quote was made from these coins: it asks for the first of them and leaves the reserve. */
  ghost predicate Funded(quote: Quote, counted: seq<Funding.Coin>)
  {
    && Funding.DistinctCoins(counted)
    && Funding.QuotedFrom(quote.review, counted, quote.feeRate,
                          Selection(|quote.review.inputs|, quote.review.amount, quote.review.maxFee))
  }

  predicate WithinReview(review: Funding.Review, loss: int) { review.amount <= loss <= review.amount + review.maxFee }

  /** A commit is of a quote made from the wallet's coins, a signature of a transaction that keeps the review. */
  ghost predicate Brings(c: Change, s: Option<Splice>, brought: Outlay)
    requires Applicable(c, s)
  {
    && (c.Commit? ==> Funded(c.quote, brought.counted))
    && (c.Sign? ==> WithinReview(s.value.quote.review, brought.loss))
  }

  ghost predicate Backed(s: Option<Splice>, outlay: Outlay)
  {
    s.Some? ==>
      && Funded(s.value.quote, outlay.counted)
      && (s.value.signedTx.Some? ==> WithinReview(s.value.quote.review, outlay.loss))
  }

  // ----- copies with their history -----

  datatype Ending = Refused | Cancelled | Released | Completed(funding: Outpoint)

  /** A copy of the saved state, the epoch of its splice, how earlier epochs ended, and what the splice takes. */
  datatype Copy = Copy(splice: Option<Splice>, epoch: nat, ended: map<nat, Ending>, outlay: Outlay)

  /** `nextEpoch` is the epoch that a commit would start. */
  function Next(c: Change, x: Copy, nextEpoch: nat, brought: Outlay): Copy
    requires Applicable(c, x.splice)
  {
    var s := Apply(c, x.splice);
    match c
    case Commit(_) => Copy(s, nextEpoch, x.ended, brought)
    case RefusedByLdk => x.(splice := s, ended := x.ended[x.epoch := Refused])
    case CancelUnsigned => x.(splice := s, ended := x.ended[x.epoch := Cancelled])
    case Release(_) => x.(splice := s, ended := x.ended[x.epoch := Released])
    case Finish(_, funding) => x.(splice := s, ended := x.ended[x.epoch := Completed(funding)])
    case Negotiate => x.(splice := s)
    case Sign(_, _) => x.(splice := s, outlay := x.outlay.(loss := brought.loss))
    case MarkPending(_) => x.(splice := s)
    case AttemptConversion => x.(splice := s)
    case ConversionDone => x.(splice := s)
  }

  /** A splice handed to LDK: its epoch, the signed transaction, the hash of the unsigned one, its quote, and what it takes. */
  datatype Submission = Submission(epoch: nat, tx: string, hash: Id, quote: Quote, outlay: Outlay)

  /**
   * The quote was made from the counted coins, the transaction costs the wallet between the reviewed amount and that
   * plus the reviewed fee, and the counted coins still hold the reserve after it.
   */
  ghost predicate KeepsReserve(sub: Submission)
  {
    && Funded(sub.quote, sub.outlay.counted)
    && WithinReview(sub.quote.review, sub.outlay.loss)
    && Sum(Funding.CoinValues(sub.outlay.counted)) - sub.outlay.loss >= ANCHOR_RESERVE_SATS
  }

  lemma BackedKeepsReserve(sub: Submission, s: Option<Splice>)
    requires Backed(s, sub.outlay) && s.Some? && s.value.signedTx.Some? && s.value.quote == sub.quote
    ensures KeepsReserve(sub)
  {
  }

  /** The copy holds the submitted transaction for good, until its channel is ready or its inputs are released. */
  ghost predicate Kept(sub: Submission, x: Copy)
  {
    || (sub.epoch in x.ended && (x.ended[sub.epoch] == Released || x.ended[sub.epoch].Completed?))
    || (x.epoch == sub.epoch && IsPending(x.splice)
        && x.splice.value.signedTx == Some(sub.tx) && x.splice.value.unsignedHash == Some(sub.hash)
        && x.splice.value.quote == sub.quote && x.outlay == sub.outlay)
  }

  /** The conversion of an epoch that has been started is not waiting to start. */
  predicate Started(epoch: nat, x: Copy)
  {
    x.epoch > epoch || (x.epoch == epoch && x.splice.Some? && x.splice.value.conversion != NotYet)
  }

  ghost predicate CopyInv(x: Copy, nextEpoch: nat)
  {
    && (x.splice.Some? ==> x.epoch < nextEpoch)
    && (forall e | e in x.ended :: e < nextEpoch && e <= x.epoch)
    && (IsPending(x.splice) ==> x.epoch !in x.ended && x.splice.value.conversion == NotYet)
    && (x.splice.Some? ==>
          && (x.splice.value.signedTx.Some? <==> x.splice.value.unsignedHash.Some?)
          && (x.splice.value.signedTx.Some? ==> x.splice.value.status != Prepared))
    && Backed(x.splice, x.outlay)
  }

  function FreshAfter(c: Change, nextEpoch: nat): nat { if c.Commit? then nextEpoch + 1 else nextEpoch }

  lemma ChangeKeepsCopy(c: Change, x: Copy, nextEpoch: nat, brought: Outlay)
    requires Applicable(c, x.splice) && Brings(c, x.splice, brought) && CopyInv(x, nextEpoch) && x.epoch <= nextEpoch
    ensures CopyInv(Next(c, x, nextEpoch, brought), FreshAfter(c, nextEpoch))
    ensures CopyInv(x, FreshAfter(c, nextEpoch))
    ensures forall e: nat | Started(e, x) && e < nextEpoch :: Started(e, Next(c, x, nextEpoch, brought))
  {
    hide Funded;
  }

  /** No change drops a submitted transaction: a signed splice ends only released or completed. */
  lemma ChangeKeepsSubmission(c: Change, x: Copy, nextEpoch: nat, brought: Outlay, sub: Submission)
    requires Applicable(c, x.splice) && CopyInv(x, nextEpoch) && Kept(sub, x) && sub.epoch < nextEpoch
    ensures Kept(sub, Next(c, x, nextEpoch, brought))
  {
    hide Backed;
  }

  /**
   * A splice that has been signed leaves the pending state by exactly two changes: LDK's failure that
   * names all its inputs, or its ready channel, on the funding output that was recorded for it. It cannot be cancelled, signed again or replaced.
   */
  lemma SignedSpliceEndsTwoWays(c: Change, x: Copy, nextEpoch: nat, brought: Outlay)
    requires Applicable(c, x.splice) && CopyInv(x, nextEpoch)
    requires IsPending(x.splice) && x.splice.value.signedTx.Some?
    ensures var y := Next(c, x, nextEpoch, brought);
            && (IsPending(y.splice) && y.epoch == x.epoch
                && y.splice.value.signedTx == x.splice.value.signedTx
                && y.splice.value.unsignedHash == x.splice.value.unsignedHash
                && y.splice.value.quote == x.splice.value.quote && y.outlay == x.outlay
                <==> !c.Release? && !c.Finish?)
            && (c.Release? ==> Inputs(x.splice) <= (set p | p in c.inputs))
            && (c.Finish? ==> x.splice.value.newFunding == Some(c.funding) && y.ended[x.epoch] == Completed(c.funding))
  {
  }

  // ----- saving -----

  datatype Vault<T> = Vault(remotely: bool, memory: T, version: nat, local: Option<T>, remote: Option<Remote<T>>)

  datatype SaveLuck = SaveLuck(reply: Reply, localOk: bool)

  function CellVersion<T>(v: Vault<T>): nat { if v.remote.Some? then v.remote.value.version else 0 }

  function PutWorks<T>(v: Vault<T>, reply: Reply): bool
  {
    !v.remotely || (reply == Accepted && v.version == CellVersion(v))
  }

  /** The remote write, then memory, then the local database. */
  function Stored<T>(v: Vault<T>, next: T, luck: SaveLuck): Vault<T>
  {
    var sent :=
      if v.remotely && luck.reply != Denied && v.version == CellVersion(v)
      then v.(remote := Some(Remote(v.version + 1, next))) else v;
    if !PutWorks(v, luck.reply) then sent
    else sent.(memory := next, version := if v.remotely then v.version + 1 else v.version,
               local := if luck.localOk then Some(next) else v.local)
  }

  function StoreWorks<T>(v: Vault<T>, luck: SaveLuck): bool { PutWorks(v, luck.reply) && luck.localOk }

  function OnDisk<T>(v: Vault<T>, empty: T): T
  {
    if v.remotely && v.remote.Some? then v.remote.value.value
    else if v.local.Some? then v.local.value else empty
  }

  function Loaded<T>(v: Vault<T>, empty: T): Vault<T>
  {
    var state := OnDisk(v, empty);
    Vault(v.remotely, state, if v.remotely then CellVersion(v) else 0,
          if v.remotely && v.remote.Some? then Some(state) else v.local, v.remote)
  }

  // ----- runs -----

  /** Whether a server keeps the state, and whether the local database ever refuses a write. */
  datatype Config = Config(remotely: bool, localReliable: bool)

  /**
   * `submitted` and `reserved` are memory of the page. `armed` says that the conversion attempt has just been saved;
   * the two sequences list the calls to LDK and the allocations asked of the stable-balance client.
   */
  datatype World = World(vault: Vault<Copy>, submitted: Option<Id>, reserved: set<Outpoint>, armed: bool,
                         submissions: seq<Submission>, converted: seq<nat>, nextEpoch: nat)

  datatype Event =
    | Save(change: Change, luck: SaveLuck, brought: Outlay)
    | Submit(accepted: bool)
    | Convert
    | Crash

  const EMPTY := Copy(None, 0, map[], NOTHING)

  function Start(cfg: Config): World
  {
    World(Vault(cfg.remotely, EMPTY, 0, None, None), None, {}, false, [], [], 0)
  }

  ghost predicate Enabled(w: World, e: Event, cfg: Config)
  {
    var s := w.vault.memory.splice;
    match e
    case Save(change, luck, brought) =>
      Applicable(change, s) && Brings(change, s, brought) && (cfg.localReliable ==> luck.localOk)
    case Submit(_) =>
      && IsPending(s) && s.value.signedTx.Some? && s.value.unsignedHash.Some?
      && w.submitted != s.value.unsignedHash
    case Convert => w.armed
    case Crash => true
  }

  function After(w: World, e: Event): World
    requires e.Save? ==> Applicable(e.change, w.vault.memory.splice)
    requires e.Submit? ==> w.vault.memory.splice.Some? && w.vault.memory.splice.value.signedTx.Some?
                           && w.vault.memory.splice.value.unsignedHash.Some?
  {
    var x := w.vault.memory;
    match e
    case Save(change, luck, brought) =>
      var vault := Stored(w.vault, Next(change, x, w.nextEpoch, brought), luck);
      w.(vault := vault, reserved := Inputs(vault.memory.splice),
         armed := change.AttemptConversion? && StoreWorks(w.vault, luck), nextEpoch := FreshAfter(change, w.nextEpoch))
    case Submit(accepted) =>
      var sub := Submission(x.epoch, x.splice.value.signedTx.value, x.splice.value.unsignedHash.value,
                            x.splice.value.quote, x.outlay);
      w.(submissions := w.submissions + [sub], submitted := if accepted then Some(sub.hash) else w.submitted)
    case Convert => w.(converted := w.converted + [x.epoch], armed := false)
    case Crash =>
      var vault := Loaded(w.vault, EMPTY);
      w.(vault := vault, submitted := None, reserved := Inputs(vault.memory.splice), armed := false)
  }

  ghost predicate Step(w: World, v: World, cfg: Config) { exists e :: Enabled(w, e, cfg) && v == After(w, e) }

  ghost predicate IsRun(ws: seq<World>, cfg: Config)
  {
    ws != [] && ws[0] == Start(cfg) && forall i | 0 <= i < |ws| - 1 :: Step(ws[i], ws[i + 1], cfg)
  }

  // ----- the invariant -----

  ghost predicate Ahead(x: Copy, y: Copy)
  {
    exists c, n: nat, b :: Applicable(c, x.splice) && CopyInv(x, n) && y == Next(c, x, n, b)
  }

  /** Memory and disk agree, or a lost answer left the disk one change ahead and no save works any more. */
  ghost predicate Tied(w: World, cfg: Config)
  {
    var d := OnDisk(w.vault, EMPTY);
    && w.vault.remotely == cfg.remotely
    && (cfg.remotely ==>
          && w.vault.version <= CellVersion(w.vault)
          && (w.vault.remote.None? ==> w.vault.local.None?)
          && (if w.vault.version == CellVersion(w.vault) then d == w.vault.memory else Ahead(w.vault.memory, d)))
    && (!cfg.remotely ==> d == w.vault.memory)
  }

  /** What holds whether or not the disk can be trusted. */
  ghost predicate AlwaysInv(w: World)
  {
    var m, d := w.vault.memory, OnDisk(w.vault, EMPTY);
    && CopyInv(m, w.nextEpoch) && CopyInv(d, w.nextEpoch)
    && m.epoch <= w.nextEpoch && d.epoch <= w.nextEpoch
    && w.reserved == Inputs(m.splice)
    && (forall e | e in w.converted :: e < w.nextEpoch && Started(e, m) && Started(e, d))
    && (forall i, j | 0 <= i < j < |w.converted| :: w.converted[i] != w.converted[j])
    && (forall sub | sub in w.submissions :: sub.epoch < w.nextEpoch && KeepsReserve(sub))
    && (w.armed ==> m == d && m.epoch !in w.converted && m.epoch < w.nextEpoch && Started(m.epoch, m))
  }

  /** Every submitted transaction is kept in memory and on disk, and each splice has only one. */
  ghost predicate SubmissionsKept(w: World)
  {
    && (forall sub | sub in w.submissions :: Kept(sub, w.vault.memory) && Kept(sub, OnDisk(w.vault, EMPTY)))
    && (forall a, b | a in w.submissions && b in w.submissions && a.epoch == b.epoch :: a == b)
  }

  predicate Durable(cfg: Config) { cfg.remotely || cfg.localReliable }

  lemma SaveKeepsAlways(w: World, c: Change, luck: SaveLuck, brought: Outlay)
    requires AlwaysInv(w) && Applicable(c, w.vault.memory.splice) && Brings(c, w.vault.memory.splice, brought)
    ensures AlwaysInv(After(w, Save(c, luck, brought)))
  {
    var m, d := w.vault.memory, OnDisk(w.vault, EMPTY);
    var y := Next(c, m, w.nextEpoch, brought);
    ChangeKeepsCopy(c, m, w.nextEpoch, brought);
    var v := After(w, Save(c, luck, brought));
    SaveMovesCopies(w.vault, y, luck);
    assert y.epoch <= v.nextEpoch;
    assert CopyInv(d, v.nextEpoch);
    assert c.AttemptConversion? ==> Started(y.epoch, y) && !Started(m.epoch, m) && y.epoch == m.epoch < w.nextEpoch;
    hide Next, Stored, OnDisk, Applicable, CopyInv, Started, StoreWorks, KeepsReserve, Brings;
  }

  lemma SaveMovesCopies(v: Vault<Copy>, next: Copy, luck: SaveLuck)
    ensures var s := Stored(v, next, luck);
            && s.memory in {v.memory, next}
            && OnDisk(s, EMPTY) in {OnDisk(v, EMPTY), next}
            && (StoreWorks(v, luck) ==> s.memory == next == OnDisk(s, EMPTY))
  {
  }

  lemma StepKeepsAlways(w: World, e: Event, cfg: Config)
    requires AlwaysInv(w) && Enabled(w, e, cfg)
    ensures AlwaysInv(After(w, e))
  {
    match e {
      case Save(c, luck, brought) => SaveKeepsAlways(w, c, luck, brought);
      case Submit(accepted) =>
        var sub := After(w, e).submissions[|w.submissions|];
        BackedKeepsReserve(sub, w.vault.memory.splice);
        assert sub.epoch < w.nextEpoch;
        hide CopyInv, Started, KeepsReserve;
      case Convert => hide CopyInv;
      case Crash =>
        assert OnDisk(After(w, e).vault, EMPTY) == OnDisk(w.vault, EMPTY);
        hide CopyInv, Started;
    }
  }

  lemma {:induction false} RunKeepsAlways(ws: seq<World>, cfg: Config, n: nat)
    requires IsRun(ws, cfg) && n < |ws|
    ensures AlwaysInv(ws[n])
    decreases n
  {
    if n > 0 {
      RunKeepsAlways(ws, cfg, n - 1);
      assert Step(ws[n - 1], ws[n - 1 + 1], cfg);
      var e :| Enabled(ws[n - 1], e, cfg) && ws[n] == After(ws[n - 1], e);
      StepKeepsAlways(ws[n - 1], e, cfg);
    }
  }

  // ----- when submissions are durable -----

  lemma SaveKeepsTied(w: World, c: Change, luck: SaveLuck, brought: Outlay, cfg: Config)
    requires Durable(cfg) && AlwaysInv(w) && Tied(w, cfg) && Enabled(w, Save(c, luck, brought), cfg)
    ensures Tied(After(w, Save(c, luck, brought)), cfg)
  {
    var y := Next(c, w.vault.memory, w.nextEpoch, brought);
    assert Ahead(w.vault.memory, y);
    hide Next, CopyInv, Applicable, Ahead;
  }

  lemma SaveKeepsSubmissions(w: World, c: Change, luck: SaveLuck, brought: Outlay, cfg: Config)
    requires AlwaysInv(w) && SubmissionsKept(w) && Enabled(w, Save(c, luck, brought), cfg)
    ensures SubmissionsKept(After(w, Save(c, luck, brought)))
  {
    var m, v := w.vault.memory, After(w, Save(c, luck, brought));
    var y := Next(c, m, w.nextEpoch, brought);
    forall sub | sub in w.submissions ensures Kept(sub, y) {
      ChangeKeepsSubmission(c, m, w.nextEpoch, brought, sub);
    }
    SaveMovesCopies(w.vault, y, luck);
    hide Next, CopyInv, Applicable, Kept, OnDisk, Stored;
  }

  /** The new submission is kept too: its transaction was saved before, and any earlier one was the same. */
  lemma SubmitKeepsSubmissions(w: World, accepted: bool, cfg: Config)
    requires Durable(cfg) && AlwaysInv(w) && Tied(w, cfg) && SubmissionsKept(w) && Enabled(w, Submit(accepted), cfg)
    ensures SubmissionsKept(After(w, Submit(accepted)))
  {
    var m, d, v := w.vault.memory, OnDisk(w.vault, EMPTY), After(w, Submit(accepted));
    var sub := v.submissions[|w.submissions|];
    assert Kept(sub, m);
    if d != m {
      var c, n: nat, b :| Applicable(c, m.splice) && CopyInv(m, n) && d == Next(c, m, n, b);
      ChangeKeepsSubmission(c, m, n, b, sub);
    }
    forall a | a in w.submissions && a.epoch == sub.epoch ensures a == sub {
      assert Kept(a, m);
    }
    hide Next, Applicable, OnDisk;
  }

  lemma StepKeepsSubmissions(w: World, e: Event, cfg: Config)
    requires Durable(cfg) && AlwaysInv(w) && Tied(w, cfg) && SubmissionsKept(w) && Enabled(w, e, cfg)
    ensures Tied(After(w, e), cfg) && SubmissionsKept(After(w, e))
  {
    match e {
      case Save(c, luck, brought) =>
        SaveKeepsTied(w, c, luck, brought, cfg);
        SaveKeepsSubmissions(w, c, luck, brought, cfg);
      case Submit(accepted) =>
        SubmitKeepsSubmissions(w, accepted, cfg);
        hide Kept, Ahead;
      case Convert => hide Kept, Ahead;
      case Crash => hide Kept, Ahead, AlwaysInv;
    }
  }

  lemma {:induction false} RunKeepsSubmissions(ws: seq<World>, cfg: Config, n: nat)
    requires IsRun(ws, cfg) && Durable(cfg) && n < |ws|
    ensures Tied(ws[n], cfg) && SubmissionsKept(ws[n])
    decreases n
  {
    if n > 0 {
      RunKeepsSubmissions(ws, cfg, n - 1);
      RunKeepsAlways(ws, cfg, n - 1);
      assert Step(ws[n - 1], ws[n - 1 + 1], cfg);
      var e :| Enabled(ws[n - 1], e, cfg) && ws[n] == After(ws[n - 1], e);
      StepKeepsSubmissions(ws[n - 1], e, cfg);
    }
  }

  // ----- and when they are not -----

  function ExampleInput(): Outpoint { Funding.Outpoint("i", 0) }

  function ExampleQuote(): Quote
  {
    Quote("q", "c", "u", "p", Funding.Review(1_000, 578, Funding.Outpoint("f", 0), 50_000, [], [], ExampleCoins()), 2, 0)
  }

  function ExampleCoins(): seq<Funding.Coin> { [Funding.Coin(ExampleInput(), 20_000)] }

  lemma ExampleIsFunded()
    ensures Funded(ExampleQuote(), ExampleCoins())
  {
    var coins := ExampleCoins();
    var values := Funding.CoinValues(coins);
    assert values == [20_000] && values[..1] == values && values[..0] == [];
    assert Prefix(values, 1) == Sum(values) == 20_000;
    assert coins[..1] == coins;
  }

  /** For brevity a transaction stands for the hash of its unsigned form as well. */
  function ExampleSplice(signed: Option<string>): Copy
  {
    var q := ExampleQuote();
    match signed
    case None => Copy(Some(Splice(q, Prepared, None, None, None, None, NotYet)), 0, map[], Outlay(ExampleCoins(), 0))
    case Some(tx) =>
      Copy(Some(Splice(q, Signed, Some(tx), Some(tx), None, None, NotYet)), 0, map[], Outlay(ExampleCoins(), 1_000))
  }

  /** Memory and the local database hold these copies, and these transactions have reached LDK. */
  function ExampleWorld(memory: Copy, local: Copy, submitted: Option<Id>, submissions: seq<Submission>): World
  {
    World(Vault(false, memory, 0, Some(local), None), submitted, {ExampleInput()}, false, submissions, [], 1)
  }

  function ExampleSubmission(tx: string): Submission { Submission(0, tx, tx, ExampleQuote(), Outlay(ExampleCoins(), 1_000)) }

  function ExampleRun(): seq<World>
  {
    var plain, one, two := ExampleSplice(None), ExampleSplice(Some("a")), ExampleSplice(Some("b"));
    var first, second := ExampleSubmission("a"), ExampleSubmission("b");
    [Start(Config(false, false)),
     ExampleWorld(plain, plain, None, []),
     ExampleWorld(one, plain, None, []),
     ExampleWorld(one, plain, Some("a"), [first]),
     ExampleWorld(plain, plain, None, [first]),
     ExampleWorld(two, two, None, [first]),
     ExampleWorld(two, two, Some("b"), [first, second])]
  }

  lemma StepTo(w: World, e: Event, v: World, cfg: Config)
    requires Enabled(w, e, cfg) && v == After(w, e)
    ensures Step(w, v, cfg)
  {
  }

  lemma ExampleCommits()
    ensures Step(ExampleRun()[0], ExampleRun()[1], Config(false, false))
  {
    assert Inputs(ExampleSplice(None).splice) == {ExampleInput()};
    ExampleIsFunded();
    hide Funded;
    StepTo(ExampleRun()[0], Save(Commit(ExampleQuote()), SaveLuck(Accepted, true), Outlay(ExampleCoins(), 0)),
           ExampleRun()[1], Config(false, false));
  }

  lemma ExampleStarts()
    ensures var ws, cfg := ExampleRun(), Config(false, false);
            Step(ws[1], ws[2], cfg) && Step(ws[2], ws[3], cfg)
  {
    var ws, cfg := ExampleRun(), Config(false, false);
    assert Inputs(ExampleSplice(None).splice) == {ExampleInput()} == Inputs(ExampleSplice(Some("a")).splice);
    StepTo(ws[1], Save(Sign("a", "a"), SaveLuck(Accepted, false), Outlay([], 1_000)), ws[2], cfg);
    StepTo(ws[2], Submit(true), ws[3], cfg);
  }

  lemma ExampleGoesOn()
    ensures var ws, cfg := ExampleRun(), Config(false, false);
            Step(ws[3], ws[4], cfg) && Step(ws[4], ws[5], cfg) && Step(ws[5], ws[6], cfg)
  {
    var ws, cfg := ExampleRun(), Config(false, false);
    assert Inputs(ExampleSplice(None).splice) == {ExampleInput()} == Inputs(ExampleSplice(Some("b")).splice);
    StepTo(ws[3], Crash, ws[4], cfg);
    StepTo(ws[4], Save(Sign("b", "b"), SaveLuck(Accepted, true), Outlay([], 1_000)), ws[5], cfg);
    StepTo(ws[5], Submit(true), ws[6], cfg);
  }

  /**
   * Without a server, one refused local write between the signature and its submission, and a crash after
   * that, two transactions of one splice reach LDK, and the first was never durable.
   */
  lemma TwoTransactionsReachLdk()
    ensures var ws := ExampleRun();
            && IsRun(ws, Config(false, false)) && |ws| == 7
            && ws[6].submissions == [ExampleSubmission("a"), ExampleSubmission("b")]
            && !SubmissionsKept(ws[3]) && !SubmissionsKept(ws[6])
  {
    hide Step, SubmissionsKept, ExampleSplice, After, Enabled;
    ExampleCommits();
    ExampleStarts();
    ExampleGoesOn();
    FirstWasNotDurable(ExampleRun()[3]);
    TwoInOneEpoch(ExampleRun()[6]);
  }

  lemma FirstWasNotDurable(w: World)
    requires w == ExampleWorld(ExampleSplice(Some("a")), ExampleSplice(None), Some("a"), [ExampleSubmission("a")])
    ensures !SubmissionsKept(w)
  {
    assert ExampleSubmission("a") in w.submissions && !Kept(ExampleSubmission("a"), OnDisk(w.vault, EMPTY));
  }

  lemma TwoInOneEpoch(w: World)
    requires w.submissions == [ExampleSubmission("a"), ExampleSubmission("b")]
    ensures !SubmissionsKept(w)
  {
    var a, b := w.submissions[0], w.submissions[1];
    assert a in w.submissions && b in w.submissions && a.tx[0] != b.tx[0];
    hide Kept, OnDisk;
  }

  /**
   * Exactly when every transaction handed to LDK for a splice is the single durably saved one: a server
   * keeps the state, or the local database never refuses a write.
   */
  lemma SubmissionsDurableIff(cfg: Config)
    ensures (forall ws: seq<World>, n: nat | IsRun(ws, cfg) && n < |ws| :: SubmissionsKept(ws[n]))
            <==> cfg.remotely || cfg.localReliable
  {
    if Durable(cfg) {
      forall ws: seq<World>, n: nat | IsRun(ws, cfg) && n < |ws| ensures SubmissionsKept(ws[n]) {
        RunKeepsSubmissions(ws, cfg, n);
      }
    } else {
      TwoTransactionsReachLdk();
      assert cfg == Config(false, false) && !SubmissionsKept(ExampleRun()[3]);
    }
  }

  // ----- over whole runs -----

  /** The reserved inputs are at all times those of the pending splice, in every configuration. */
  lemma ReservedArePendingInputs(ws: seq<World>, cfg: Config, n: nat)
    requires IsRun(ws, cfg) && n < |ws|
    ensures ws[n].reserved == Inputs(ws[n].vault.memory.splice)
  {
    RunKeepsAlways(ws, cfg, n);
  }

  /** The allocation that follows a splice is started at most once for each splice, in every configuration. */
  lemma ConvertedAtMostOnce(ws: seq<World>, cfg: Config, n: nat, i: nat, j: nat)
    requires IsRun(ws, cfg) && n < |ws| && i < j < |ws[n].converted|
    ensures ws[n].converted[i] != ws[n].converted[j]
  {
    RunKeepsAlways(ws, cfg, n);
  }

  /**
   * From its submission on a transaction stays with its pending splice until LDK releases all inputs or the
   * channel is ready: in any later state of the run, crashes included.
   */
  lemma SubmittedSpliceEndsTwoWays(ws: seq<World>, cfg: Config, n: nat, sub: Submission)
    requires IsRun(ws, cfg) && Durable(cfg) && n < |ws| && sub in ws[n].submissions
    ensures var x := ws[n].vault.memory;
            || (x.epoch == sub.epoch && IsPending(x.splice) && x.splice.value.signedTx == Some(sub.tx)
                && Inputs(x.splice) == ws[n].reserved && !Applicable(CancelUnsigned, x.splice))
            || (sub.epoch in x.ended && (x.ended[sub.epoch] == Released || x.ended[sub.epoch].Completed?))
  {
    RunKeepsSubmissions(ws, cfg, n);
    RunKeepsAlways(ws, cfg, n);
    assert Kept(sub, ws[n].vault.memory);
  }

  /**
   * In every configuration, each transaction that ever reaches LDK was quoted from coins of the wallet, costs it between the
   * reviewed amount and that plus the reviewed fee, and leaves the reserve in the coins counted at quote time.
   */
  lemma SubmissionsKeepReserve(ws: seq<World>, cfg: Config, n: nat, sub: Submission)
    requires IsRun(ws, cfg) && n < |ws| && sub in ws[n].submissions
    ensures KeepsReserve(sub)
  {
    RunKeepsAlways(ws, cfg, n);
  }
}
