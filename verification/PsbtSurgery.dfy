/**
 * Adding wallet coins and change to the sweep that LDK prepared, and the plan
 * of a subsidised sweep around it. What LDK put in stays as it was, and the fee
 * of the result is the fee that was computed.
 */
module PsbtSurgery {
  import opened Results
  import opened Arithmetic
  import opened Digits
  import opened CoinSums
  import opened PsbtFormat
  import opened PsbtRoundTrip
  import Codec = PsbtCodec
  import Subsidy = SubsidySelection

  const RBF_SEQUENCE := 0xffff_fffd
  const MAX_TX_INPUTS := 200

  /** A wallet coin, with its txid in display order. */
  datatype ForeignInput = ForeignInput(txidDisplay: Bytes, vout: int, value: int, script: Bytes)

  function Reversed(b: Bytes): (r: Bytes)
    ensures |r| == |b| && forall i | 0 <= i < |b| :: r[i] == b[|b| - 1 - i]
  {
    if b == [] then [] else Reversed(b[1..]) + [b[0]]
  }

  // ----- the amounts the inputs spend -----

  function WitnessAmount(value: Bytes): Result<nat, PsbtError>
  {
    var (output, u) :- ReadOutput(value);
    if u != |value| then Err(MalformedWitnessUtxo) else Ok(output.value)
  }

  function FirstWitness(kvs: seq<Kv>): Result<nat, PsbtError>
  {
    if kvs == [] then Err(NoWitnessUtxo)
    else if kvs[0].key == WITNESS_UTXO_KEY then WitnessAmount(kvs[0].value)
    else FirstWitness(kvs[1..])
  }

  /** The amount that an input map says its input spends. */
  function WitnessValue(m: Bytes): Result<nat, PsbtError>
  {
    var kvs :- MapKvs(m);
    FirstWitness(kvs)
  }

  /**
   * The amount is that of the first pair with key 1, whose value must be one output and nothing else; without such a pair there
   * is no amount.
   */
  lemma {:induction false} FirstWitnessIs(kvs: seq<Kv>)
    ensures (forall i | 0 <= i < |kvs| :: kvs[i].key != [1]) ==> FirstWitness(kvs) == Err(NoWitnessUtxo)
    ensures forall i | 0 <= i < |kvs| && kvs[i].key == [1] && (forall j | 0 <= j < i :: kvs[j].key != [1]) ::
              match ReadOutput(kvs[i].value)
              case Ok((output, used)) =>
                FirstWitness(kvs) == if used == |kvs[i].value| then Ok(output.value) else Err(MalformedWitnessUtxo)
              case Err(error) => FirstWitness(kvs) == Err(error)
  {
    hide ReadOutput;
    if kvs != [] && kvs[0].key != [1] {
      FirstWitnessIs(kvs[1..]);
      forall i | 0 <= i < |kvs| && kvs[i].key == [1] && (forall j | 0 <= j < i :: kvs[j].key != [1])
        ensures i > 0 && kvs[1..][i - 1] == kvs[i] && forall j | 0 <= j < i - 1 :: kvs[1..][j].key != [1]
      {
      }
    }
  }

  /** `values` are the amounts of the maps, one each. */
  ghost predicate WitnessValuesAre(maps: seq<Bytes>, values: seq<int>)
  {
    |values| == |maps| && forall i | 0 <= i < |maps| :: WitnessValue(maps[i]) == Ok(values[i])
  }

  method ReadWitnessUtxoValues(p: Psbt) returns (r: Result<seq<int>, PsbtError>)
    ensures r.Ok? ==> WitnessValuesAre(p.inputMaps, r.value)
    ensures r.Err? ==> exists i :: 0 <= i < |p.inputMaps| && WitnessValue(p.inputMaps[i]) == Err(r.error)
                                   && forall j | 0 <= j < i :: WitnessValue(p.inputMaps[j]).Ok?
  {
    hide MapKvs, WitnessAmount;
    var values: seq<int> := [];
    for i := 0 to |p.inputMaps|
      invariant WitnessValuesAre(p.inputMaps[..i], values)
    {
      var kvs := Codec.IterateMapKvs(p.inputMaps[i]);
      if kvs.Err? {
        return Err(kvs.error);
      }
      var found := FindWitness(kvs.value);
      if found.Err? {
        return Err(found.error);
      }
      values := values + [found.value];
    }
    assert p.inputMaps[..|p.inputMaps|] == p.inputMaps;
    return Ok(values);
  }

  method FindWitness(kvs: seq<Kv>) returns (r: Result<nat, PsbtError>)
    ensures r == FirstWitness(kvs)
  {
    for k := 0 to |kvs|
      invariant FirstWitness(kvs) == FirstWitness(kvs[k..])
    {
      var kv := kvs[k];
      if kv.key == WITNESS_UTXO_KEY {
        var reader := new Codec.ByteReader(kv.value);
        assert kv.value[0..] == kv.value;
        var output :- reader.NextOutput();
        if |kv.value| - reader.offset != 0 {
          return Err(MalformedWitnessUtxo);
        }
        return Ok(output.value);
      }
    }
    return Err(NoWitnessUtxo);
  }

  // ----- appending -----

  function NewInput(f: ForeignInput): TxIn { TxIn(Reversed(f.txidDisplay), f.vout, RBF_SEQUENCE) }

  /** A per-input map with exactly one entry, the coin it spends. */
  function WitnessUtxoMap(f: ForeignInput): Bytes
  {
    WriteKv(Kv(WITNESS_UTXO_KEY, WriteOutput(TxOut(f.value, f.script)))) + [0]
  }

  function NewInputs(fs: seq<ForeignInput>): (r: seq<TxIn>)
    ensures |r| == |fs| && forall i | 0 <= i < |fs| :: r[i] == NewInput(fs[i])
  {
    seq(|fs|, i requires 0 <= i < |fs| => NewInput(fs[i]))
  }

  function NewMaps(fs: seq<ForeignInput>): (r: seq<Bytes>)
    ensures |r| == |fs| && forall i | 0 <= i < |fs| :: r[i] == WitnessUtxoMap(fs[i])
  {
    seq(|fs|, i requires 0 <= i < |fs| => WitnessUtxoMap(fs[i]))
  }

  function AppendForeignInputsAndChange(p: Psbt, fs: seq<ForeignInput>, change: Option<TxOut>): Result<Psbt, PsbtError>
  {
    if |fs| == 0 then Err(NothingToAppend)
    else if |p.tx.inputs| + |fs| > MAX_TX_INPUTS then Err(TooManyInputs)
    else Ok(Psbt(
      p.others,
      p.tx.(inputs := p.tx.inputs + NewInputs(fs),
            outputs := if change.Some? then p.tx.outputs + [change.value] else p.tx.outputs),
      p.inputMaps + NewMaps(fs),
      if change.Some? then p.outputMaps + [[0]] else p.outputMaps))
  }

  predicate GoodForeign(f: ForeignInput)
  {
    && |f.txidDisplay| == 32 && IsU32(f.vout) && 0 <= f.value < TWO64
    && |f.script| <= MAX_SAFE && |WriteOutput(TxOut(f.value, f.script))| <= MAX_SAFE
  }

  /** The map of a coin holds one pair, with key 1, that reads back as the coin's amount and script. */
  lemma WitnessMapReads(f: ForeignInput)
    requires GoodForeign(f)
    ensures MapKvs(WitnessUtxoMap(f)).Ok? && WitnessValue(WitnessUtxoMap(f)) == Ok(f.value)
    ensures var kvs := MapKvs(WitnessUtxoMap(f)).value;
            |kvs| == 1 && kvs[0].key == [1] && ReadOutput(kvs[0].value) == Ok((TxOut(f.value, f.script), |kvs[0].value|))
  {
    hide ReadKv, WriteKv, ReadOutput, WriteOutput;
    var output := WriteOutput(TxOut(f.value, f.script));
    var kv := Kv(WITNESS_UTXO_KEY, output);
    var m := WitnessUtxoMap(f);
    KvReadsBack(kv, [0]);
    TerminatorReads([]);
    assert m[|WriteKv(kv)|..] == [0] + [];
    assert ReadKvs([0]) == Ok(([], 1)) by { assert [0] + [] == [0]; }
    assert ReadKvs(m) == Ok(([kv] + [], |m|));
    OutputReadsBack(TxOut(f.value, f.script), []);
    assert output + [] == output;
  }

  /** The maps LDK filled in, and the new ones, give the old amounts and then the coins' own. */
  lemma AppendedWitnessValues(p: Psbt, fs: seq<ForeignInput>, change: Option<TxOut>, before: seq<int>)
    requires AppendForeignInputsAndChange(p, fs, change).Ok?
    requires forall i | 0 <= i < |fs| :: GoodForeign(fs[i])
    requires WitnessValuesAre(p.inputMaps, before)
    ensures WitnessValuesAre(AppendForeignInputsAndChange(p, fs, change).value.inputMaps, before + ForeignValues(fs))
  {
    hide WitnessValue, WitnessUtxoMap, GoodForeign;
    forall i | 0 <= i < |fs|
      ensures WitnessValue(NewMaps(fs)[i]) == Ok(fs[i].value)
    {
      WitnessMapReads(fs[i]);
    }
  }

  function ForeignValues(fs: seq<ForeignInput>): (values: seq<int>)
    ensures |values| == |fs| && forall i | 0 <= i < |fs| :: values[i] == fs[i].value
  {
    seq(|fs|, i requires 0 <= i < |fs| => fs[i].value)
  }

  function OutputValues(outputs: seq<TxOut>): (values: seq<int>)
    ensures |values| == |outputs| && forall i | 0 <= i < |outputs| :: values[i] == outputs[i].value
  {
    seq(|outputs|, i requires 0 <= i < |outputs| => outputs[i].value)
  }

  lemma SumOutputsMore(outputs: seq<TxOut>, change: TxOut)
    ensures Sum(OutputValues(outputs + [change])) == Sum(OutputValues(outputs)) + change.value
  {
    assert OutputValues(outputs + [change])[..|outputs|] == OutputValues(outputs);
  }

  /** The input spends this coin: its txid in internal byte order, its index, and a sequence that signals replaceability. */
  ghost predicate Spends(input: TxIn, f: ForeignInput)
  {
    && |input.prevTxid| == |f.txidDisplay|
    && (forall j | 0 <= j < |f.txidDisplay| :: input.prevTxid[j] == f.txidDisplay[|f.txidDisplay| - 1 - j])
    && input.vout == f.vout && input.sequence == 0xffff_fffd
  }

  /**
   * Surgery keeps every old input, output, map and global pair in place, and the locktime and version. After them it
   * adds an input and its map for each coin in order, and the change output, if any.
   */
  lemma AppendKeepsOriginal(p: Psbt, fs: seq<ForeignInput>, change: Option<TxOut>)
    requires AppendForeignInputsAndChange(p, fs, change).Ok?
    ensures var q := AppendForeignInputsAndChange(p, fs, change).value;
            && q.others == p.others && q.tx.version == p.tx.version && q.tx.locktime == p.tx.locktime
            && p.tx.inputs <= q.tx.inputs && SpendEach(q.tx.inputs[|p.tx.inputs|..], fs)
            && q.tx.outputs == p.tx.outputs + (if change.Some? then [change.value] else [])
            && p.inputMaps <= q.inputMaps && p.outputMaps <= q.outputMaps
            && |q.inputMaps| == |p.inputMaps| + |fs|
            && (forall i | 0 <= i < |fs| :: q.inputMaps[|p.inputMaps| + i] == WitnessUtxoMap(fs[i]))
            && (|p.inputMaps| == |p.tx.inputs| ==> |q.inputMaps| == |q.tx.inputs|)
            && (|p.outputMaps| == |p.tx.outputs| ==> |q.outputMaps| == |q.tx.outputs|)
  {
    NewInputsSpend(fs);
    var q := AppendForeignInputsAndChange(p, fs, change).value;
    assert q.tx.inputs[|p.tx.inputs|..] == NewInputs(fs);
    hide NewInput, WitnessUtxoMap, SpendEach;
  }

  /** One input for each coin, in order. */
  ghost predicate SpendEach(inputs: seq<TxIn>, fs: seq<ForeignInput>)
  {
    |inputs| == |fs| && forall i | 0 <= i < |fs| :: Spends(inputs[i], fs[i])
  }

  lemma NewInputsSpend(fs: seq<ForeignInput>)
    ensures SpendEach(NewInputs(fs), fs)
  {
    forall i | 0 <= i < |fs| ensures Spends(NewInputs(fs)[i], fs[i]) {
      NewInputSpends(fs[i]);
    }
    hide Spends, NewInput;
  }

  lemma NewInputSpends(f: ForeignInput)
    ensures Spends(NewInput(f), f)
  {
  }

  /** The result is well-formed again, so it survives the trip through its own bytes. */
  lemma AppendedSurvivesBytes(p: Psbt, fs: seq<ForeignInput>, change: Option<TxOut>)
    requires GoodPsbt(p) && AppendForeignInputsAndChange(p, fs, change).Ok?
    requires forall i | 0 <= i < |fs| :: GoodForeign(fs[i])
    requires change.Some? ==> GoodOutput(change.value) && |p.tx.outputs| < MAX_SAFE
    requires |WriteTx(AppendForeignInputsAndChange(p, fs, change).value.tx)| <= MAX_SAFE
    ensures var q := AppendForeignInputsAndChange(p, fs, change).value;
            GoodPsbt(q) && SerializePsbt(q).Ok? && ParsePsbt(SerializePsbt(q).value) == Ok(q)
  {
    hide MapKvs, WriteTx, WitnessUtxoMap, GoodForeign, ParsePsbt, SerializePsbt, GoodKv;
    var q := AppendForeignInputsAndChange(p, fs, change).value;
    forall i | 0 <= i < |fs|
      ensures GoodInput(NewInput(fs[i])) && MapKvs(WitnessUtxoMap(fs[i])).Ok?
    {
      WitnessMapReads(fs[i]);
      ForeignInputGood(fs[i]);
    }
    assert MapKvs([0]).Ok? by { EmptyMapReads(); }
    ParsePrint(q);
  }

  lemma EmptyMapReads()
    ensures MapKvs([0]).Ok?
  {
  }

  lemma ForeignInputGood(f: ForeignInput)
    requires GoodForeign(f)
    ensures GoodInput(NewInput(f))
  {
  }

  // ----- the plan of a subsidised sweep -----

  datatype SweepPlan =
    | Failed(reason: string)
    | NotEconomical(needed: int, pending: int)
    | NoFunds(needed: int, available: int, shortfall: int)
    | Combined(psbt: Psbt, bytes: Bytes, totalFee: int, subsidy: int, count: nat)

  /** The transaction is LDK's with the first `count` coins behind its inputs and at most one output behind its outputs. */
  ghost predicate Extends(tx: UnsignedTx, ldk: UnsignedTx, coins: seq<ForeignInput>, count: nat)
    requires count <= |coins|
  {
    && tx.version == ldk.version && tx.locktime == ldk.locktime
    && ldk.inputs <= tx.inputs && SpendEach(tx.inputs[|ldk.inputs|..], coins[..count])
    && ldk.outputs <= tx.outputs && |tx.outputs| <= |ldk.outputs| + 1
  }

  /** What the transaction pays back to the wallet: the output behind LDK's, to the change script, or nothing. */
  ghost predicate Returns(tx: UnsignedTx, ldk: UnsignedTx, changeScript: Bytes, change: int)
    requires ldk.outputs <= tx.outputs
  {
    tx.outputs == if change == 0 then ldk.outputs else ldk.outputs + [TxOut(change, changeScript)]
  }

  /** The vbytes of the whole transaction: LDK's weight, 272 for each coin, and 124 for a change output. */
  function Vbytes(ldkWeight: nat, count: nat, withChange: bool): nat
  {
    (ldkWeight + 272 * count + (if withChange then 124 else 0) + 3) / 4
  }

  /** The coins and the change take the subsidy out of the wallet and leave it the reserve, or all it had. */
  ghost predicate KeepsReserve(values: seq<int>, count: nat, change: int, subsidy: int, reserve: int)
    requires count <= |values|
  {
    && change == Sum(values[..count]) - subsidy
    && change + Sum(values[count..]) >= Min(Sum(values), reserve)
  }

  /** What a plan that goes ahead promises about the transaction it built. */
  ghost predicate PlanHolds(plan: SweepPlan, ldk: Psbt, ldkWeight: nat, coins: seq<ForeignInput>, rate: nat, reserve: int,
                            changeScript: Bytes)
    requires plan.Combined?
  {
    && 1 <= plan.count <= |coins|
    && SerializePsbt(plan.psbt) == Ok(plan.bytes)
    && plan.psbt.others == ldk.others
    && Extends(plan.psbt.tx, ldk.tx, coins, plan.count)
    && SpendsValues(plan, ldk, coins, Amounts(plan.psbt.inputMaps))
    && var change := Sum(ForeignValues(coins)[..plan.count]) - plan.subsidy;
    && Returns(plan.psbt.tx, ldk.tx, changeScript, change)
    && (change == 0 || change >= 546)
    && KeepsReserve(ForeignValues(coins), plan.count, change, plan.subsidy, reserve)
    && plan.subsidy < Sum(OutputValues(ldk.tx.outputs))
    && PaysRate(plan.totalFee, Vbytes(ldkWeight, plan.count, change != 0), rate, change != 0)
  }

  /** The fee pays the rate for these vbytes; without a change output it may exceed that by less than dust and 31 vbytes. */
  ghost predicate PaysRate(fee: int, vbytes: nat, rate: nat, exactly: bool)
  {
    vbytes * rate <= fee && (if exactly then fee == vbytes * rate else fee - vbytes * rate < 546 + 31 * rate)
  }

  /** The amounts that the maps say their inputs spend. */
  function Amounts(maps: seq<Bytes>): (values: seq<int>)
    ensures |values| == |maps|
  {
    seq(|maps|, i requires 0 <= i < |maps| => if WitnessValue(maps[i]).Ok? then WitnessValue(maps[i]).value else 0)
  }

  lemma TheAmounts(maps: seq<Bytes>, values: seq<int>)
    requires WitnessValuesAre(maps, values)
    ensures values == Amounts(maps)
  {
    hide WitnessValue;
  }

  /** The amounts that the inputs spend: LDK's as before, the coins' own, and the computed fee more than the outputs. */
  ghost predicate SpendsValues(plan: SweepPlan, ldk: Psbt, coins: seq<ForeignInput>, spent: seq<int>)
    requires plan.Combined? && plan.count <= |coins|
  {
    && WitnessValuesAre(plan.psbt.inputMaps, spent)
    && |spent| == |ldk.inputMaps| + plan.count
    && WitnessValuesAre(ldk.inputMaps, spent[..|ldk.inputMaps|])
    && spent[|ldk.inputMaps|..] == ForeignValues(coins)[..plan.count]
    && Sum(spent) - Sum(OutputValues(plan.psbt.tx.outputs)) == plan.totalFee
  }

  /** The amounts in the LDK transaction, and the fee they leave. */
  ghost predicate LdkPays(ldk: Psbt, spent: seq<int>, fee: int)
  {
    WitnessValuesAre(ldk.inputMaps, spent) && fee == Sum(spent) - Sum(OutputValues(ldk.tx.outputs))
  }

  /** Why the sweep may refuse without looking at the wallet's balance. */
  ghost predicate Refusable(ldk: Psbt, ldkWeight: nat, rate: nat, changeScript: Bytes)
  {
    || (exists i :: 0 <= i < |ldk.tx.outputs| && ldk.tx.outputs[i].value < Subsidy.DUST_LIMIT_SATS)
    || (exists i :: 0 <= i < |ldk.inputMaps| && WitnessValue(ldk.inputMaps[i]).Err?)
    || (exists spent, fee :: LdkPays(ldk, spent, fee)
                             && (fee < 0 || Subsidy.Needed(Subsidy.Demand(ldkWeight, fee, rate), 1, true) == 0))
    || |changeScript| != 22
    || |ldk.tx.inputs| + Subsidy.MAX_SUBSIDY_INPUTS > MAX_TX_INPUTS
    || |ldk.inputMaps| != |ldk.tx.inputs| || |ldk.outputMaps| != |ldk.tx.outputs| || !TxidsAre32(ldk.tx.inputs)
  }

  /** Everything the sweep decides before it asks for signatures. */
  method PlanSweep(ldk: Psbt, ldkWeight: nat, coins: seq<ForeignInput>, rate: nat, reserve: nat, changeScript: Bytes)
    returns (plan: SweepPlan)
    requires forall i | 0 <= i < |coins| :: GoodForeign(coins[i])
    ensures plan.Combined? ==> PlanHolds(plan, ldk, ldkWeight, coins, rate, reserve, changeScript)
    ensures plan.NotEconomical? ==> plan.needed >= Sum(OutputValues(ldk.tx.outputs))
    ensures plan.NoFunds? ==>
      && plan.available == Subsidy.Spendable(ForeignValues(coins), reserve)
      && plan.shortfall == Max(plan.needed - plan.available, 1)
      && exists spent, fee: nat :: LdkPays(ldk, spent, fee)
           && forall n | 1 <= n <= |coins| && n <= Subsidy.MAX_SUBSIDY_INPUTS ::
                !Subsidy.Fits(ForeignValues(coins), reserve, Subsidy.Demand(ldkWeight, fee, rate), n)
    ensures plan.Failed? ==> Refusable(ldk, ldkWeight, rate, changeScript)
  {
    hide WitnessValue, WitnessUtxoMap, GoodForeign, WriteTx, WritePsbt;
    for i := 0 to |ldk.tx.outputs|
    {
      if ldk.tx.outputs[i].value < Subsidy.DUST_LIMIT_SATS {
        return Failed("sub-dust-output");
      }
    }
    var spent := ReadWitnessUtxoValues(ldk);
    if spent.Err? {
      return Failed("unexpected-error");
    }
    var ldkIn, ldkOut := Sum(spent.value), Sum(OutputValues(ldk.tx.outputs));
    var ldkFee := ldkIn - ldkOut;
    assert LdkPays(ldk, spent.value, ldkFee);
    if ldkFee < 0 {
      return Failed("negative-ldk-fee");
    }
    var d := Subsidy.Demand(ldkWeight, ldkFee, rate);
    var minimum := Subsidy.Needed(d, 1, true);
    if minimum <= 0 {
      return Failed("no-subsidy-needed");
    }
    if minimum >= ldkOut {
      return NotEconomical(minimum, ldkIn);
    }
    plan := SelectAndBuild(ldk, spent.value, coins, d, reserve, changeScript);
  }

  /** Coin selection, change and surgery, once a subsidy is known to be worth it. */
  method SelectAndBuild(ldk: Psbt, spent: seq<int>, coins: seq<ForeignInput>, d: Subsidy.Demand, reserve: nat, changeScript: Bytes)
    returns (plan: SweepPlan)
    requires forall i | 0 <= i < |coins| :: GoodForeign(coins[i])
    requires LdkPays(ldk, spent, d.ldkFee) && Subsidy.Needed(d, 1, true) > 0
    ensures plan.Combined? ==> PlanHolds(plan, ldk, d.ldkWeight, coins, d.rate, reserve, changeScript)
    ensures plan.NotEconomical? ==> plan.needed >= Sum(OutputValues(ldk.tx.outputs))
    ensures plan.NoFunds? ==>
      && plan.available == Subsidy.Spendable(ForeignValues(coins), reserve)
      && plan.shortfall == Max(plan.needed - plan.available, 1)
      && forall n | 1 <= n <= |coins| && n <= Subsidy.MAX_SUBSIDY_INPUTS :: !Subsidy.Fits(ForeignValues(coins), reserve, d, n)
    ensures plan.Failed? ==> Refusable(ldk, d.ldkWeight, d.rate, changeScript)
  {
    hide WitnessValue, WitnessUtxoMap, GoodForeign, WriteTx, WritePsbt, WitnessValuesAre, Subsidy.Fits;
    var ldkOut := Sum(OutputValues(ldk.tx.outputs));
    var values := ForeignValues(coins);
    assert Subsidy.NonNegative(values) by { CoinsNonNegative(coins); }
    var choice := Subsidy.SelectSubsidyInputs(values, d, reserve);
    if choice.Shortfall? {
      return NoFunds(choice.needed, choice.available, Max(choice.needed - choice.available, 1));
    }
    if choice.subsidy >= ldkOut {
      return NotEconomical(choice.subsidy, Sum(spent));
    }
    var change: Option<TxOut> := None;
    if choice.change.Some? {
      if |changeScript| != 22 {
        return Failed("unexpected-change-script");
      }
      change := Some(TxOut(choice.change.value, changeScript));
    }
    var fs := coins[..choice.count];
    var combined := AppendForeignInputsAndChange(ldk, fs, change);
    if combined.Err? {
      return Failed("unexpected-error");
    }
    var bytes := Codec.SerializePsbtBytes(combined.value);
    assert bytes.Err? ==> |ldk.inputMaps| != |ldk.tx.inputs| || |ldk.outputMaps| != |ldk.tx.outputs|
                          || !TxidsAre32(ldk.tx.inputs) by {
      SerializationRefused(ldk, fs, change);
    }
    if bytes.Err? {
      return Failed("unexpected-error");
    }
    plan := Combined(combined.value, bytes.value, choice.totalFee, choice.subsidy, choice.count);
    CombinedExtends(ldk, fs, change);
    CombinedSpends(plan, ldk, fs, change, spent, coins, choice, d, reserve);
    PlanIsSound(plan, ldk, coins, choice, d, reserve, changeScript);
  }

  lemma SerializationRefused(ldk: Psbt, fs: seq<ForeignInput>, change: Option<TxOut>)
    requires AppendForeignInputsAndChange(ldk, fs, change).Ok?
    requires forall i | 0 <= i < |fs| :: GoodForeign(fs[i])
    ensures SerializePsbt(AppendForeignInputsAndChange(ldk, fs, change).value).Err? ==>
              || |ldk.inputMaps| != |ldk.tx.inputs| || |ldk.outputMaps| != |ldk.tx.outputs|
              || !TxidsAre32(ldk.tx.inputs)
  {
    hide WritePsbt, WitnessUtxoMap;
  }

  /** A selection from the coins and its change, as the surgery receives them, over amounts that LDK filled in. */
  ghost predicate Builds(ldk: Psbt, fs: seq<ForeignInput>, change: Option<TxOut>, before: seq<int>,
                         coins: seq<ForeignInput>, choice: Subsidy.Outcome, d: Subsidy.Demand, reserve: int)
  {
    && Subsidy.IsSelection(ForeignValues(coins), d, reserve, choice)
    && choice.count <= |coins| && fs == coins[..choice.count]
    && change.Some? == choice.change.Some? && (change.Some? ==> change.value.value == choice.change.value)
    && (forall i | 0 <= i < |coins| :: GoodForeign(coins[i]))
    && LdkPays(ldk, before, d.ldkFee)
  }

  /** The promises of a plan from those of the selection and of the surgery. */
  lemma PlanIsSound(plan: SweepPlan, ldk: Psbt, coins: seq<ForeignInput>, choice: Subsidy.Outcome, d: Subsidy.Demand,
                    reserve: nat, changeScript: Bytes)
    requires Subsidy.NonNegative(ForeignValues(coins)) && Subsidy.Needed(d, 1, true) > 0
    requires Subsidy.IsSelection(ForeignValues(coins), d, reserve, choice)
    requires choice.subsidy < Sum(OutputValues(ldk.tx.outputs))
    requires plan.Combined? && SerializePsbt(plan.psbt) == Ok(plan.bytes) && plan.psbt.others == ldk.others
    requires plan.totalFee == choice.totalFee && plan.subsidy == choice.subsidy && plan.count == choice.count <= |coins|
    requires Extends(plan.psbt.tx, ldk.tx, coins, plan.count)
    requires plan.psbt.tx.outputs
          == ldk.tx.outputs + if choice.change.Some? then [TxOut(choice.change.value, changeScript)] else []
    requires SpendsValues(plan, ldk, coins, Amounts(plan.psbt.inputMaps))
    ensures PlanHolds(plan, ldk, d.ldkWeight, coins, d.rate, reserve, changeScript)
  {
    hide SerializePsbt, Vbytes, Sum, Subsidy.IsSelection, OutputValues, Subsidy.Needed, Subsidy.NonNegative, WitnessValue,
      Spends, Amounts;
    ChoiceKeeps(ForeignValues(coins), d, reserve, choice);
    var change := Sum(ForeignValues(coins)[..plan.count]) - plan.subsidy;
    assert Returns(plan.psbt.tx, ldk.tx, changeScript, change);
  }

  lemma CombinedExtends(ldk: Psbt, fs: seq<ForeignInput>, change: Option<TxOut>)
    requires AppendForeignInputsAndChange(ldk, fs, change).Ok?
    ensures var q := AppendForeignInputsAndChange(ldk, fs, change).value;
            && q.others == ldk.others
            && q.tx.outputs == ldk.tx.outputs + (if change.Some? then [change.value] else [])
            && forall coins: seq<ForeignInput>, count | 0 <= count <= |coins| && coins[..count] == fs ::
                 Extends(q.tx, ldk.tx, coins, count)
  {
    AppendKeepsOriginal(ldk, fs, change);
    hide AppendForeignInputsAndChange, SpendEach;
  }

  /** A selection's change is what its coins hold beyond the subsidy, and its fee is that of the vbytes. */
  lemma ChoiceKeeps(values: seq<int>, d: Subsidy.Demand, reserve: nat, choice: Subsidy.Outcome)
    requires Subsidy.NonNegative(values) && Subsidy.IsSelection(values, d, reserve, choice) && Subsidy.Needed(d, 1, true) > 0
    ensures 1 <= choice.count <= |values|
    ensures var change := Sum(values[..choice.count]) - choice.subsidy;
            && choice.change == (if change == 0 then None else Some(change))
            && (change == 0 || change >= 546)
            && KeepsReserve(values, choice.count, change, choice.subsidy, reserve)
            && PaysRate(choice.totalFee, Vbytes(d.ldkWeight, choice.count, change != 0), d.rate, change != 0)
  {
    Subsidy.SelectionFee(values, d, reserve, choice);
    SplitSum(values, choice.count);
    VbytesAre(d, choice.count, choice.change.Some?);
    hide Subsidy.FeeForWeight, Subsidy.Needed, Vbytes, Sum;
  }

  lemma CombinedSpends(plan: SweepPlan, ldk: Psbt, fs: seq<ForeignInput>, change: Option<TxOut>, spent: seq<int>,
                       coins: seq<ForeignInput>, choice: Subsidy.Outcome, d: Subsidy.Demand, reserve: nat)
    requires Builds(ldk, fs, change, spent, coins, choice, d, reserve)
    requires AppendForeignInputsAndChange(ldk, fs, change).Ok?
    requires plan.Combined? && plan.psbt == AppendForeignInputsAndChange(ldk, fs, change).value
    requires plan.totalFee == choice.totalFee && plan.count == choice.count
    ensures SpendsValues(plan, ldk, coins, Amounts(plan.psbt.inputMaps))
  {
    hide WitnessValue, AppendForeignInputsAndChange, OutputValues, Sum, Amounts, Subsidy.IsSelection, GoodForeign;
    CombinedFee(ldk, fs, change, spent, coins, choice, d, reserve);
    TheAmounts(plan.psbt.inputMaps, spent + ForeignValues(fs));
    SplitAgain(spent, ForeignValues(fs));
    PrefixValues(coins, plan.count);
    assert WitnessValuesAre(ldk.inputMaps, spent) && |spent| == |ldk.inputMaps| && fs == coins[..plan.count];
  }

  lemma PrefixValues(coins: seq<ForeignInput>, n: nat)
    requires n <= |coins|
    ensures ForeignValues(coins[..n]) == ForeignValues(coins)[..n]
  {
  }

  lemma SplitAgain(a: seq<int>, b: seq<int>)
    ensures (a + b)[..|a|] == a && (a + b)[|a|..] == b
  {
  }

  lemma SplitSum(values: seq<int>, n: nat)
    requires n <= |values|
    ensures Sum(values) == Sum(values[..n]) + Sum(values[n..])
  {
    assert values == values[..n] + values[n..];
    SumAppend(values[..n], values[n..]);
  }

  lemma VbytesAre(d: Subsidy.Demand, count: nat, withChange: bool)
    ensures Subsidy.FeeForWeight(Subsidy.Weight(d, count, withChange), d.rate)
         == Vbytes(d.ldkWeight, count, withChange) * d.rate
  {
  }

  lemma CoinsNonNegative(coins: seq<ForeignInput>)
    requires forall i | 0 <= i < |coins| :: GoodForeign(coins[i])
    ensures Subsidy.NonNegative(ForeignValues(coins))
  {
  }

  /** The amounts in the combined PSBT leave exactly the computed fee. */
  lemma CombinedFee(ldk: Psbt, fs: seq<ForeignInput>, change: Option<TxOut>, before: seq<int>,
                    coins: seq<ForeignInput>, choice: Subsidy.Outcome, d: Subsidy.Demand, reserve: int)
    ensures match AppendForeignInputsAndChange(ldk, fs, change)
            case Ok(q) =>
              Builds(ldk, fs, change, before, coins, choice, d, reserve) ==>
                && WitnessValuesAre(q.inputMaps, before + ForeignValues(fs))
                && Sum(before + ForeignValues(fs)) - Sum(OutputValues(q.tx.outputs)) == choice.totalFee
            case Err(_) => true
  {
    hide WitnessValue, WitnessUtxoMap, GoodForeign;
    if AppendForeignInputsAndChange(ldk, fs, change).Ok? && Builds(ldk, fs, change, before, coins, choice, d, reserve) {
      AppendedWitnessValues(ldk, fs, change, before);
      SumAppend(before, ForeignValues(fs));
      assert ForeignValues(coins)[..choice.count] == ForeignValues(fs);
      if change.Some? {
        SumOutputsMore(ldk.tx.outputs, change.value);
      }
    }
  }
}
