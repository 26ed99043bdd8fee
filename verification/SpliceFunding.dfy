/**
 * The last check before the wallet signs a splice: the negotiated transaction
 * must spend exactly the reviewed coins, pay the channel the reviewed amount
 * and cost no more than the reviewed fee.
 */
module SpliceFunding {
  import opened Results
  import opened Arithmetic
  import opened CoinSums
  import Selection = SpliceSelection

  type Script = seq<int>
  datatype Outpoint = Outpoint(txid: string, vout: nat)
  datatype TxOut = TxOut(value: nat, script: Script)
  datatype Tx = Tx(inputs: seq<Outpoint>, outputs: seq<TxOut>)
  /** A previous transaction with the id that hashing it gives. */
  datatype PrevTx = PrevTx(txid: string, outputs: seq<TxOut>)
  datatype Coin = Coin(outpoint: Outpoint, value: nat)
  datatype Review = Review(amount: int, maxFee: int, fundingOutpoint: Outpoint, channelValue: int,
                           fundingScript: Script, changeScript: Script, inputs: seq<Coin>)

  datatype FundingError =
    | DuplicateInput
    | MissingPrevious
    | HashMismatch
    | MissingPreviousOutput
    | SharedInputDiffers
    | InputNotOurs
    | UnapprovedWalletInput
    | InputsDifferFromReview
    | UnexpectedWalletOutput
    | AmbiguousFunding
    | AmountNotAdded
    | FeeExceeded

  // ----- the coins of the review -----

  /** The reviewed coin at an outpoint; a repeated outpoint keeps its last coin. */
  function Approved(coins: seq<Coin>, outpoint: Outpoint): Option<Coin>
  {
    if coins == [] then None
    else if coins[|coins| - 1].outpoint == outpoint then Some(coins[|coins| - 1])
    else Approved(coins[..|coins| - 1], outpoint)
  }

  lemma {:induction false} ApprovedIff(coins: seq<Coin>, outpoint: Outpoint)
    ensures Approved(coins, outpoint).Some? <==> exists k :: 0 <= k < |coins| && coins[k].outpoint == outpoint
    ensures Approved(coins, outpoint).Some? ==>
              Approved(coins, outpoint).value in coins && Approved(coins, outpoint).value.outpoint == outpoint
  {
    if coins != [] {
      var last := |coins| - 1;
      if coins[last].outpoint != outpoint {
        ApprovedIff(coins[..last], outpoint);
        if k :| 0 <= k < |coins| && coins[k].outpoint == outpoint {
          assert coins[..last][k].outpoint == outpoint;
        }
      }
    }
  }

  // ----- one input, one output -----

  /** The output an input spends, when its previous transaction is at hand and has it. */
  function Spent(tx: Tx, previous: seq<PrevTx>, i: nat): Option<TxOut>
    requires i < |tx.inputs|
  {
    if i < |previous| && tx.inputs[i].vout < |previous[i].outputs|
    then Some(previous[i].outputs[tx.inputs[i].vout]) else None
  }

  function InputFault(tx: Tx, previous: seq<PrevTx>, review: Review, isMine: Script -> bool, i: nat): Option<FundingError>
    requires i < |tx.inputs|
  {
    var outpoint := tx.inputs[i];
    if outpoint in tx.inputs[..i] then Some(DuplicateInput)
    else if i >= |previous| then Some(MissingPrevious)
    else if previous[i].txid != outpoint.txid then Some(HashMismatch)
    else if Spent(tx, previous, i).None? then Some(MissingPreviousOutput)
    else
      var output := Spent(tx, previous, i).value;
      var coin := Approved(review.inputs, outpoint);
      if outpoint == review.fundingOutpoint
         && (output.value != review.channelValue || output.script != review.fundingScript)
      then Some(SharedInputDiffers)
      else if coin.Some? && (output.value != coin.value.value || !isMine(output.script)) then Some(InputNotOurs)
      else if coin.None? && isMine(output.script) then Some(UnapprovedWalletInput)
      else None
  }

  predicate IsFundingOutput(output: TxOut, isMine: Script -> bool)
  {
    !isMine(output.script) && |output.script| == 34 && output.script[0] == 0 && output.script[1] == 32
  }

  predicate OutputFault(output: TxOut, review: Review, isMine: Script -> bool)
  {
    isMine(output.script) && output.script != review.changeScript
  }

  // ----- totals over the first n inputs or outputs -----

  function ValueAt(tx: Tx, previous: seq<PrevTx>, i: nat): int
    requires i < |tx.inputs|
  {
    if Spent(tx, previous, i).Some? then Spent(tx, previous, i).value.value else 0
  }

  function InputValue(tx: Tx, previous: seq<PrevTx>, n: nat): int
    requires n <= |tx.inputs|
  {
    if n == 0 then 0 else InputValue(tx, previous, n - 1) + ValueAt(tx, previous, n - 1)
  }

  /** What the wallet puts in: every spent output that pays one of its scripts. */
  function WalletIn(tx: Tx, previous: seq<PrevTx>, isMine: Script -> bool, n: nat): int
    requires n <= |tx.inputs|
  {
    if n == 0 then 0
    else WalletIn(tx, previous, isMine, n - 1)
         + var spent := Spent(tx, previous, n - 1); if spent.Some? && isMine(spent.value.script) then spent.value.value else 0
  }

  /** What the wallet gets back. */
  function WalletOut(tx: Tx, isMine: Script -> bool, n: nat): int
    requires n <= |tx.outputs|
  {
    if n == 0 then 0
    else WalletOut(tx, isMine, n - 1) + if isMine(tx.outputs[n - 1].script) then tx.outputs[n - 1].value else 0
  }

  function OutputValue(tx: Tx, n: nat): int
    requires n <= |tx.outputs|
  {
    if n == 0 then 0 else OutputValue(tx, n - 1) + tx.outputs[n - 1].value
  }

  /** The only funding output, if there is exactly one. */
  ghost predicate IsOnlyFunding(tx: Tx, isMine: Script -> bool, k: nat)
  {
    && k < |tx.outputs|
    && IsFundingOutput(tx.outputs[k], isMine)
    && forall j | 0 <= j < |tx.outputs| && IsFundingOutput(tx.outputs[j], isMine) :: j == k
  }

  ghost predicate InputsMatch(tx: Tx, previous: seq<PrevTx>, review: Review, isMine: Script -> bool)
  {
    && (forall i: nat | i < |tx.inputs| :: InputFault(tx, previous, review, isMine, i).None?)
    && review.fundingOutpoint in tx.inputs
    && forall k | 0 <= k < |review.inputs| :: review.inputs[k].outpoint in tx.inputs
  }

  /** The transaction keeps every promise of the review. */
  ghost predicate KeepsReview(tx: Tx, previous: seq<PrevTx>, review: Review, isMine: Script -> bool)
  {
    && InputsMatch(tx, previous, review, isMine)
    && (forall j | 0 <= j < |tx.outputs| :: !OutputFault(tx.outputs[j], review, isMine))
    && (exists k: nat :: IsOnlyFunding(tx, isMine, k) && tx.outputs[k].value >= review.channelValue + review.amount)
    && 0 <= WalletIn(tx, previous, isMine, |tx.inputs|) - WalletOut(tx, isMine, |tx.outputs|) - review.amount
         <= review.maxFee
    && 0 <= InputValue(tx, previous, |tx.inputs|) - OutputValue(tx, |tx.outputs|) <= Selection.MAX_FEE_SATS
  }

  /** The accounting loop over the inputs: the first fault, or the two sums. */
  method CheckInputs(tx: Tx, previous: seq<PrevTx>, review: Review, isMine: Script -> bool)
    returns (fault: Option<FundingError>, inputValue: int, ourInputs: int)
    ensures fault.None? <==> InputsMatch(tx, previous, review, isMine)
    ensures forall i: nat | i < |tx.inputs|
              && InputFault(tx, previous, review, isMine, i).Some?
              && (forall h: nat | h < i :: InputFault(tx, previous, review, isMine, h).None?)
            :: fault == InputFault(tx, previous, review, isMine, i)
    ensures fault == Some(InputsDifferFromReview) <==>
              && (forall i: nat | i < |tx.inputs| :: InputFault(tx, previous, review, isMine, i).None?)
              && !InputsMatch(tx, previous, review, isMine)
    ensures fault.Some? ==>
              fault.value !in {UnexpectedWalletOutput, AmbiguousFunding, AmountNotAdded, FeeExceeded}
    ensures fault.None? ==>
              && inputValue == InputValue(tx, previous, |tx.inputs|)
              && ourInputs == WalletIn(tx, previous, isMine, |tx.inputs|)
  {
    var seen: set<Outpoint> := {};
    fault, inputValue, ourInputs := None, 0, 0;
    var index := 0;
    while index < |tx.inputs|
      invariant 0 <= index <= |tx.inputs| && fault.None?
      invariant seen == set x | x in tx.inputs[..index]
      invariant forall i: nat | i < index :: InputFault(tx, previous, review, isMine, i).None?
      invariant inputValue == InputValue(tx, previous, index)
      invariant ourInputs == WalletIn(tx, previous, isMine, index)
    {
      var outpoint := tx.inputs[index];
      ghost var expected := InputFault(tx, previous, review, isMine, index);
      if outpoint in seen {
        assert expected == Some(DuplicateInput);
        fault := Some(DuplicateInput);
        return;
      }
      assert tx.inputs[..index + 1] == tx.inputs[..index] + [outpoint];
      seen := seen + {outpoint};
      if index >= |previous| {
        assert expected == Some(MissingPrevious);
        fault := Some(MissingPrevious);
        return;
      }
      var prev := previous[index];
      if prev.txid != outpoint.txid {
        assert expected == Some(HashMismatch);
        fault := Some(HashMismatch);
        return;
      }
      if outpoint.vout >= |prev.outputs| {
        assert expected == Some(MissingPreviousOutput);
        fault := Some(MissingPreviousOutput);
        return;
      }
      var output := prev.outputs[outpoint.vout];
      if outpoint == review.fundingOutpoint
         && (output.value != review.channelValue || output.script != review.fundingScript) {
        assert expected == Some(SharedInputDiffers);
        fault := Some(SharedInputDiffers);
        return;
      }
      inputValue := inputValue + output.value;
      var coin := Approved(review.inputs, outpoint);
      if coin.Some? {
        if output.value != coin.value.value || !isMine(output.script) {
          assert expected == Some(InputNotOurs);
          fault := Some(InputNotOurs);
          return;
        }
        ourInputs := ourInputs + output.value;
      } else if isMine(output.script) {
        assert expected == Some(UnapprovedWalletInput);
        fault := Some(UnapprovedWalletInput);
        return;
      }
      index := index + 1;
    }
    assert tx.inputs[..index] == tx.inputs;
    if review.fundingOutpoint !in seen || exists k | 0 <= k < |review.inputs| :: review.inputs[k].outpoint !in seen {
      fault := Some(InputsDifferFromReview);
    }
  }

  /** The accounting loop over the outputs; `funding` is the value of the one funding output. */
  method CheckOutputs(tx: Tx, review: Review, isMine: Script -> bool)
    returns (allowed: bool, outputValue: int, change: int, funding: Option<int>)
    ensures allowed <==> forall j | 0 <= j < |tx.outputs| :: !OutputFault(tx.outputs[j], review, isMine)
    ensures allowed ==>
              && outputValue == OutputValue(tx, |tx.outputs|)
              && change == WalletOut(tx, isMine, |tx.outputs|)
              && (funding.Some? <==> exists k: nat :: IsOnlyFunding(tx, isMine, k))
              && forall k: nat | IsOnlyFunding(tx, isMine, k) :: funding == Some(tx.outputs[k].value)
  {
    allowed, outputValue, change, funding := true, 0, 0, None;
    var value, fundingOutputs := 0, 0;
    ghost var last := 0;
    var j := 0;
    while j < |tx.outputs|
      invariant 0 <= j <= |tx.outputs| && allowed
      invariant forall i | 0 <= i < j :: !OutputFault(tx.outputs[i], review, isMine)
      invariant outputValue == OutputValue(tx, j)
      invariant change == WalletOut(tx, isMine, j)
      invariant fundingOutputs >= 0
      invariant fundingOutputs == 0 <==> forall i | 0 <= i < j :: !IsFundingOutput(tx.outputs[i], isMine)
      invariant fundingOutputs >= 1 ==>
        && last < j && IsFundingOutput(tx.outputs[last], isMine) && value == tx.outputs[last].value
      invariant fundingOutputs == 1 ==>
        forall i | 0 <= i < j && IsFundingOutput(tx.outputs[i], isMine) :: i == last
      invariant fundingOutputs >= 2 ==>
        exists a, b :: 0 <= a < b < j && IsFundingOutput(tx.outputs[a], isMine) && IsFundingOutput(tx.outputs[b], isMine)
    {
      var output := tx.outputs[j];
      outputValue := outputValue + output.value;
      var mine := isMine(output.script);
      if !mine && |output.script| == 34 && output.script[0] == 0 && output.script[1] == 32 {
        value := output.value;
        fundingOutputs := fundingOutputs + 1;
        last := j;
      }
      if mine {
        if output.script != review.changeScript {
          allowed := false;
          return;
        }
        change := change + output.value;
      }
      j := j + 1;
    }
    if fundingOutputs == 1 {
      assert IsOnlyFunding(tx, isMine, last);
      funding := Some(value);
    }
  }

  /** The validator. It passes exactly the transactions that keep the review. */
  method ValidateSpliceFunding(tx: Tx, previous: seq<PrevTx>, review: Review, isMine: Script -> bool)
    returns (r: Result<(), FundingError>)
    ensures r.Ok? <==> KeepsReview(tx, previous, review, isMine)
    ensures forall i: nat | i < |tx.inputs|
              && InputFault(tx, previous, review, isMine, i).Some?
              && (forall h: nat | h < i :: InputFault(tx, previous, review, isMine, h).None?)
            :: r == Err(InputFault(tx, previous, review, isMine, i).value)
    ensures r == Err(InputsDifferFromReview) <==>
              && (forall i: nat | i < |tx.inputs| :: InputFault(tx, previous, review, isMine, i).None?)
              && !InputsMatch(tx, previous, review, isMine)
    ensures r == Err(UnexpectedWalletOutput) <==>
              && InputsMatch(tx, previous, review, isMine)
              && exists j :: 0 <= j < |tx.outputs| && OutputFault(tx.outputs[j], review, isMine)
    ensures r == Err(AmbiguousFunding) <==>
              && InputsMatch(tx, previous, review, isMine)
              && (forall j | 0 <= j < |tx.outputs| :: !OutputFault(tx.outputs[j], review, isMine))
              && forall k: nat :: !IsOnlyFunding(tx, isMine, k)
    ensures r == Err(AmountNotAdded) <==>
              && InputsMatch(tx, previous, review, isMine)
              && (forall j | 0 <= j < |tx.outputs| :: !OutputFault(tx.outputs[j], review, isMine))
              && exists k: nat :: IsOnlyFunding(tx, isMine, k)
                                  && tx.outputs[k].value < review.channelValue + review.amount
  {
    hide InputFault, InputsMatch, OutputFault, InputValue, OutputValue, WalletIn, WalletOut;
    var fault, inputValue, ourInputs := CheckInputs(tx, previous, review, isMine);
    if fault.Some? {
      return Err(fault.value);
    }
    var allowed, outputValue, change, funding := CheckOutputs(tx, review, isMine);
    if !allowed {
      return Err(UnexpectedWalletOutput);
    }
    var ourFee := ourInputs - change - review.amount;
    var totalFee := inputValue - outputValue;
    if funding.None? {
      return Err(AmbiguousFunding);
    }
    if funding.value < review.channelValue + review.amount {
      return Err(AmountNotAdded);
    }
    if ourFee < 0 || ourFee > review.maxFee || totalFee < 0 || totalFee > Selection.MAX_FEE_SATS {
      return Err(FeeExceeded);
    }
    return Ok(());
  }

  // ----- what a validated splice means for the wallet -----

  ghost predicate DistinctCoins(coins: seq<Coin>)
  {
    forall i, j | 0 <= i < j < |coins| :: coins[i].outpoint != coins[j].outpoint
  }

  function CoinValues(coins: seq<Coin>): (values: seq<int>)
    ensures |values| == |coins| && forall i | 0 <= i < |coins| :: values[i] == coins[i].value
  {
    seq(|coins|, i requires 0 <= i < |coins| => coins[i].value)
  }

  /** The reviewed coins among the first n inputs, counted at their reviewed value. */
  ghost function ReviewedIn(inputs: seq<Outpoint>, coins: seq<Coin>, n: nat): int
    requires n <= |inputs|
  {
    if n == 0 then 0
    else ReviewedIn(inputs, coins, n - 1)
         + var coin := Approved(coins, inputs[n - 1]); if coin.Some? then coin.value.value else 0
  }

  lemma {:induction false} WalletInIsReviewed(tx: Tx, previous: seq<PrevTx>, review: Review, isMine: Script -> bool, n: nat)
    requires n <= |tx.inputs|
    requires forall i: nat | i < |tx.inputs| :: InputFault(tx, previous, review, isMine, i).None?
    ensures WalletIn(tx, previous, isMine, n) == ReviewedIn(tx.inputs, review.inputs, n)
  {
    if n > 0 {
      WalletInIsReviewed(tx, previous, review, isMine, n - 1);
      assert InputFault(tx, previous, review, isMine, n - 1).None?;
    }
  }

  /** Dropping the last coin takes its value out once, at the one input that spends it. */
  lemma {:induction false} DropLastCoin(inputs: seq<Outpoint>, coins: seq<Coin>, n: nat)
    requires n <= |inputs| && coins != [] && DistinctCoins(coins)
    requires forall i, j | 0 <= i < j < |inputs| :: inputs[i] != inputs[j]
    ensures var last := coins[|coins| - 1];
            ReviewedIn(inputs, coins, n) == ReviewedIn(inputs, coins[..|coins| - 1], n)
                                            + if last.outpoint in inputs[..n] then last.value else 0
  {
    var last := coins[|coins| - 1];
    if n > 0 {
      DropLastCoin(inputs, coins, n - 1);
      assert inputs[..n] == inputs[..n - 1] + [inputs[n - 1]];
      ApprovedIff(coins[..|coins| - 1], inputs[n - 1]);
      if inputs[n - 1] == last.outpoint {
        assert inputs[n - 1] !in inputs[..n - 1];
      }
    }
  }

  lemma {:induction false} ReviewedInIsSum(inputs: seq<Outpoint>, coins: seq<Coin>)
    requires DistinctCoins(coins)
    requires forall i, j | 0 <= i < j < |inputs| :: inputs[i] != inputs[j]
    requires forall k | 0 <= k < |coins| :: coins[k].outpoint in inputs
    ensures ReviewedIn(inputs, coins, |inputs|) == Sum(CoinValues(coins))
  {
    if coins == [] {
      NothingReviewed(inputs, |inputs|);
    } else {
      var rest := coins[..|coins| - 1];
      ReviewedInIsSum(inputs, rest);
      DropLastCoin(inputs, coins, |inputs|);
      assert inputs[..|inputs|] == inputs;
      assert CoinValues(coins)[..|coins| - 1] == CoinValues(rest);
    }
  }

  lemma {:induction false} NothingReviewed(inputs: seq<Outpoint>, n: nat)
    requires n <= |inputs|
    ensures ReviewedIn(inputs, [], n) == 0
  {
    if n > 0 {
      NothingReviewed(inputs, n - 1);
    }
  }

  /**
   * A validated splice spends exactly the reviewed coins of the wallet, at their reviewed total,
   * and takes from it the amount plus at most the reviewed fee.
   */
  lemma ValidatedSpliceCost(tx: Tx, previous: seq<PrevTx>, review: Review, isMine: Script -> bool)
    requires KeepsReview(tx, previous, review, isMine) && DistinctCoins(review.inputs)
    ensures var ourIn := WalletIn(tx, previous, isMine, |tx.inputs|);
            && ourIn == Sum(CoinValues(review.inputs))
            && review.amount <= ourIn - WalletOut(tx, isMine, |tx.outputs|) <= review.amount + review.maxFee
    ensures forall i: nat | i < |tx.inputs| ::
              && Spent(tx, previous, i).Some?
              && (isMine(Spent(tx, previous, i).value.script)
                  <==> exists k :: 0 <= k < |review.inputs| && review.inputs[k].outpoint == tx.inputs[i])
  {
    WalletInIsReviewed(tx, previous, review, isMine, |tx.inputs|);
    forall i, j | 0 <= i < j < |tx.inputs| ensures tx.inputs[i] != tx.inputs[j] {
      assert InputFault(tx, previous, review, isMine, j).None?;
      assert tx.inputs[i] in tx.inputs[..j];
    }
    ReviewedInIsSum(tx.inputs, review.inputs);
    forall i: nat | i < |tx.inputs|
      ensures && Spent(tx, previous, i).Some?
              && (isMine(Spent(tx, previous, i).value.script)
                  <==> exists k :: 0 <= k < |review.inputs| && review.inputs[k].outpoint == tx.inputs[i])
    {
      assert InputFault(tx, previous, review, isMine, i).None?;
      ApprovedIff(review.inputs, tx.inputs[i]);
    }
  }

  /**
   * What a validated splice looks like: each input once, each with the previous transaction it names; the channel's own output
   * among them, unchanged; every reviewed coin among them, and no other coin of the wallet; nothing paid to the wallet but to the
   * reviewed change script; one funding output, which gains at least the amount; and at most 50,000 sats for the miner.
   */
  lemma ValidatedSpliceShape(tx: Tx, previous: seq<PrevTx>, review: Review, isMine: Script -> bool)
    requires KeepsReview(tx, previous, review, isMine)
    ensures |tx.inputs| <= |previous|
    ensures forall i, j | 0 <= i < j < |tx.inputs| :: tx.inputs[i] != tx.inputs[j]
    ensures forall i: nat | i < |tx.inputs| ::
              && previous[i].txid == tx.inputs[i].txid && tx.inputs[i].vout < |previous[i].outputs|
              && var spent := previous[i].outputs[tx.inputs[i].vout];
              && (tx.inputs[i] == review.fundingOutpoint ==>
                    spent.value == review.channelValue && spent.script == review.fundingScript)
              && (isMine(spent.script) <==> exists c | c in review.inputs :: c.outpoint == tx.inputs[i])
    ensures review.fundingOutpoint in tx.inputs && forall c | c in review.inputs :: c.outpoint in tx.inputs
    ensures forall o | o in tx.outputs && isMine(o.script) :: o.script == review.changeScript
    ensures exists k :: 0 <= k < |tx.outputs| && tx.outputs[k].value >= review.channelValue + review.amount
              && forall j | 0 <= j < |tx.outputs| ::
                   (j == k <==> !isMine(tx.outputs[j].script) && |tx.outputs[j].script| == 34
                                && tx.outputs[j].script[0] == 0 && tx.outputs[j].script[1] == 32)
    ensures 0 <= InputValue(tx, previous, |tx.inputs|) - OutputValue(tx, |tx.outputs|) <= 50_000
  {
    forall i: nat | i < |tx.inputs|
      ensures i < |previous| && previous[i].txid == tx.inputs[i].txid && tx.inputs[i].vout < |previous[i].outputs|
      ensures var spent := previous[i].outputs[tx.inputs[i].vout];
              && (tx.inputs[i] == review.fundingOutpoint ==>
                    spent.value == review.channelValue && spent.script == review.fundingScript)
              && (isMine(spent.script) <==> exists c | c in review.inputs :: c.outpoint == tx.inputs[i])
    {
      assert InputFault(tx, previous, review, isMine, i).None?;
      ApprovedIff(review.inputs, tx.inputs[i]);
    }
    forall i, j | 0 <= i < j < |tx.inputs| ensures tx.inputs[i] != tx.inputs[j] {
      assert InputFault(tx, previous, review, isMine, j).None?;
      assert tx.inputs[i] in tx.inputs[..j];
    }
    if |tx.inputs| > 0 {
      assert InputFault(tx, previous, review, isMine, |tx.inputs| - 1).None?;
    }
    var k: nat :| IsOnlyFunding(tx, isMine, k) && tx.outputs[k].value >= review.channelValue + review.amount;
    assert forall j | 0 <= j < |tx.outputs| :: j == k <==> IsFundingOutput(tx.outputs[j], isMine);
  }

  /** The review a quote asks for: the first coins of the wallet, the amount and the fee as a cap. */
  ghost predicate QuotedFrom(review: Review, coins: seq<Coin>, feeRate: int, choice: Selection.Selection)
  {
    && Selection.Funds(CoinValues(coins), feeRate, choice.amount, choice.count)
    && choice.fee == Selection.PrefixFee(feeRate, choice.count)
    && review.inputs == coins[..choice.count]
    && review.amount == choice.amount
    && review.maxFee == choice.fee
  }

  /**
   * From quote to signature: when a transaction passes validation against a quoted review, the
   * wallet spends the quoted coins only, the channel gains at least the amount, and the coins
   * counted at quote time still hold the reserve once the change is back.
   */
  lemma QuotedSpliceKeepsReserve(tx: Tx, previous: seq<PrevTx>, review: Review, isMine: Script -> bool,
                                 coins: seq<Coin>, feeRate: int, choice: Selection.Selection)
    requires DistinctCoins(coins)
    requires QuotedFrom(review, coins, feeRate, choice)
    requires KeepsReview(tx, previous, review, isMine)
    ensures var loss := WalletIn(tx, previous, isMine, |tx.inputs|) - WalletOut(tx, isMine, |tx.outputs|);
            && choice.amount <= loss <= choice.amount + choice.fee
            && WalletIn(tx, previous, isMine, |tx.inputs|) == Prefix(CoinValues(coins), choice.count)
            && Sum(CoinValues(coins)) - loss >= Selection.ANCHOR_RESERVE_SATS
    ensures exists k: nat :: IsOnlyFunding(tx, isMine, k) && tx.outputs[k].value >= review.channelValue + choice.amount
  {
    ValidatedSpliceCost(tx, previous, review, isMine);
    assert CoinValues(coins)[..choice.count] == CoinValues(review.inputs);
  }
}
