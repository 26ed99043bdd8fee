/**
 * The byte format of a PSBT (BIP 174, "Specification") as this wallet reads
 * and writes it. A reader takes the bytes from its position on and returns a
 * value with the number of bytes used; a writer returns the bytes.
 */
module PsbtFormat {
  import opened Results
  import opened Arithmetic
  import opened Digits

  type Bytes = seq<byte>

  datatype PsbtError =
    | NegativeVarint
    | UnexpectedEnd
    | TruncatedVarint
    | VarintTooLarge
    | NonEmptyScriptSig
    | TrailingAfterTx
    | TrailingInMap
    | BadMagic
    | DuplicateUnsignedTx
    | MissingUnsignedTx
    | TrailingAfterMaps
    | BadTxidLength
    | InputMapMismatch
    | OutputMapMismatch
    | NothingToAppend
    | TooManyInputs
    | MalformedWitnessUtxo
    | NoWitnessUtxo

  const MAGIC: Bytes := [0x70, 0x73, 0x62, 0x74, 0xff]
  const UNSIGNED_TX_KEY: Bytes := [0]
  const WITNESS_UTXO_KEY: Bytes := [1]
  const TWO16 := 0x1_0000
  const TWO32 := 0x1_0000_0000
  const TWO64 := 0x1_0000_0000_0000_0000
  const MAX_SAFE := 0x1f_ffff_ffff_ffff

  datatype TxIn = TxIn(prevTxid: Bytes, vout: int, sequence: int)
  datatype TxOut = TxOut(value: int, script: Bytes)
  datatype UnsignedTx = UnsignedTx(version: int, inputs: seq<TxIn>, outputs: seq<TxOut>, locktime: int)
  datatype Kv = Kv(key: Bytes, value: Bytes)
  /** What the global map holds: the unsigned transaction, if any, and the other pairs. */
  datatype Global = Global(tx: Option<Bytes>, others: seq<Kv>)
  datatype Psbt = Psbt(others: seq<Kv>, tx: UnsignedTx, inputMaps: seq<Bytes>, outputMaps: seq<Bytes>)

  type Read<T> = Result<(T, nat), PsbtError>

  // ----- little-endian integers -----

  lemma Regroup(a: Bytes, b: Bytes, c: Bytes)
    ensures (a + b) + c == a + (b + c)
  {
  }

  function LittleEndian(v: nat, n: nat): (b: Bytes)
    ensures |b| == n
    decreases n
  {
    if n == 0 then [] else [v % 256] + LittleEndian(v / 256, n - 1)
  }

  function FromLittle(b: Bytes): nat { if b == [] then 0 else b[0] + 256 * FromLittle(b[1..]) }

  lemma {:induction false} FromLittleBound(b: Bytes)
    ensures FromLittle(b) < Power(256, |b|)
  {
    if b != [] {
      FromLittleBound(b[1..]);
    }
  }

  lemma {:induction false} LittleOfFrom(b: Bytes)
    ensures LittleEndian(FromLittle(b), |b|) == b
  {
    if b != [] {
      LittleOfFrom(b[1..]);
      DivModUnique(FromLittle(b), 256, FromLittle(b[1..]), b[0]);
      assert b == [b[0]] + b[1..];
    }
  }

  lemma {:induction false} FromOfLittle(v: nat, n: nat)
    requires v < Power(256, n)
    ensures FromLittle(LittleEndian(v, n)) == v
    decreases n
  {
    if n > 0 {
      FromOfLittle(v / 256, n - 1);
      assert LittleEndian(v, n)[1..] == LittleEndian(v / 256, n - 1);
    }
  }

  lemma Powers256()
    ensures Power(256, 2) == TWO16 && Power(256, 4) == TWO32 && Power(256, 8) == TWO64
  {
    assert Power(256, 2) == TWO16;
    PowerAdd(256, 2, 2);
    PowerAdd(256, 4, 4);
  }

  function WriteU32(v: int): (b: Bytes)
    ensures |b| == 4
  {
    LittleEndian(v % TWO32, 4)
  }

  function WriteU64(v: int): (b: Bytes)
    ensures |b| == 8
  {
    LittleEndian(v % TWO64, 8)
  }

  function SignOf(u: nat): int { if u >= 0x8000_0000 then u - TWO32 else u }

  // ----- CompactSize -----

  function Take(b: Bytes, n: nat): Read<Bytes>
  {
    if |b| < n then Err(UnexpectedEnd) else Ok((b[..n], n))
  }

  function ReadU32(b: Bytes): Read<nat>
  {
    if |b| < 4 then Err(UnexpectedEnd) else Ok((FromLittle(b[..4]), 4))
  }

  function ReadU64(b: Bytes): Read<nat>
  {
    if |b| < 8 then Err(UnexpectedEnd) else Ok((FromLittle(b[..8]), 8))
  }

  function ReadVarint(b: Bytes): Read<nat>
  {
    if |b| < 1 then Err(UnexpectedEnd)
    else if b[0] < 0xfd then Ok((b[0], 1))
    else if b[0] == 0xfd then if |b| < 3 then Err(TruncatedVarint) else Ok((FromLittle(b[1..3]), 3))
    else if b[0] == 0xfe then if |b| < 5 then Err(UnexpectedEnd) else Ok((FromLittle(b[1..5]), 5))
    else if |b| < 9 then Err(UnexpectedEnd) else Ok((FromLittle(b[1..9]), 9))
  }

  function ReadSize(b: Bytes): (r: Read<nat>)
    ensures r.Ok? ==> 0 < r.value.1 <= |b| && r.value.0 <= MAX_SAFE
  {
    var (v, u) :- ReadVarint(b);
    if v > MAX_SAFE then Err(VarintTooLarge) else Ok((v, u))
  }

  function WriteVarint(n: nat): (b: Bytes)
    ensures 0 < |b| <= 9
  {
    if n < 0xfd then [n]
    else if n < TWO16 then [0xfd] + LittleEndian(n, 2)
    else if n < TWO32 then [0xfe] + LittleEndian(n, 4)
    else [0xff] + LittleEndian(n % TWO64, 8)
  }

  /** The shortest of the encodings of its value. */
  ghost predicate Minimal(b: Bytes)
  {
    ReadVarint(b).Ok? && |WriteVarint(ReadVarint(b).value.0)| == ReadVarint(b).value.1
  }

  /** A first byte followed by a k-byte integer. */
  lemma TaggedReadsBack(first: byte, v: nat, k: nat, rest: Bytes)
    requires v < Power(256, k)
    ensures var b := [first] + LittleEndian(v, k) + rest;
            |b| >= k + 1 && b[0] == first && FromLittle(b[1..k + 1]) == v
  {
    var b := [first] + LittleEndian(v, k) + rest;
    assert b[1..k + 1] == LittleEndian(v, k);
    FromOfLittle(v, k);
  }

  lemma VarintReadsBack(n: nat, rest: Bytes)
    requires n < TWO64
    ensures ReadVarint(WriteVarint(n) + rest) == Ok((n, |WriteVarint(n)|))
  {
    hide Power, LittleEndian, FromLittle;
    Powers256();
    if n >= 0xfd {
      if n < TWO16 {
        TaggedReadsBack(0xfd, n, 2, rest);
      } else if n < TWO32 {
        TaggedReadsBack(0xfe, n, 4, rest);
      } else {
        TaggedReadsBack(0xff, n, 8, rest);
      }
    }
  }

  lemma SizeReadsBack(n: nat, rest: Bytes)
    requires n <= MAX_SAFE
    ensures ReadSize(WriteVarint(n) + rest) == Ok((n, |WriteVarint(n)|))
    ensures Minimal(WriteVarint(n) + rest)
  {
    VarintReadsBack(n, rest);
  }

  /** A minimal CompactSize is what the writer writes. */
  lemma MinimalIsWritten(b: Bytes)
    requires Minimal(b)
    ensures ReadVarint(b).value.1 <= |b|
    ensures WriteVarint(ReadVarint(b).value.0) == b[..ReadVarint(b).value.1]
  {
    hide Power, LittleEndian, FromLittle;
    Powers256();
    var u := ReadVarint(b).value.1;
    if u == 1 {
      assert b[..1] == [b[0]];
    } else {
      FromLittleBound(b[1..u]);
      LittleOfFrom(b[1..u]);
      assert b[..u] == [b[0]] + b[1..u];
    }
  }

  // ----- transaction inputs and outputs -----

  function ReadInput(b: Bytes): (r: Read<TxIn>)
    ensures r.Ok? ==> r.value.1 <= |b|
  {
    var (txid, u1) :- Take(b, 32);
    var (vout, u2) :- ReadU32(b[32..]);
    var (scriptLen, u3) :- ReadSize(b[36..]);
    if scriptLen != 0 then Err(NonEmptyScriptSig)
    else
      var (sequence, u4) :- ReadU32(b[36 + u3..]);
      Ok((TxIn(txid, vout, sequence), 36 + u3 + 4))
  }

  function WriteInput(i: TxIn): Bytes
  {
    i.prevTxid + WriteU32(i.vout) + WriteVarint(0) + WriteU32(i.sequence)
  }

  function ReadOutput(b: Bytes): (r: Read<TxOut>)
    ensures r.Ok? ==> r.value.1 <= |b|
  {
    var (value, u1) :- ReadU64(b);
    var (scriptLen, u2) :- ReadSize(b[8..]);
    var (script, u3) :- Take(b[8 + u2..], scriptLen);
    Ok((TxOut(value, script), 8 + u2 + scriptLen))
  }

  function WriteOutput(o: TxOut): Bytes { WriteU64(o.value) + WriteVarint(|o.script|) + o.script }

  function ReadInputs(b: Bytes, n: nat): (r: Read<seq<TxIn>>)
    ensures r.Ok? ==> r.value.1 <= |b| && |r.value.0| == n
    decreases n
  {
    if n == 0 then Ok(([], 0))
    else
      var (first, u) :- ReadInput(b);
      var (rest, us) :- ReadInputs(b[u..], n - 1);
      Ok(([first] + rest, u + us))
  }

  function ReadOutputs(b: Bytes, n: nat): (r: Read<seq<TxOut>>)
    ensures r.Ok? ==> r.value.1 <= |b| && |r.value.0| == n
    decreases n
  {
    if n == 0 then Ok(([], 0))
    else
      var (first, u) :- ReadOutput(b);
      var (rest, us) :- ReadOutputs(b[u..], n - 1);
      Ok(([first] + rest, u + us))
  }

  function WriteInputs(inputs: seq<TxIn>): Bytes
  {
    if inputs == [] then [] else WriteInput(inputs[0]) + WriteInputs(inputs[1..])
  }

  function WriteOutputs(outputs: seq<TxOut>): Bytes
  {
    if outputs == [] then [] else WriteOutput(outputs[0]) + WriteOutputs(outputs[1..])
  }

  // ----- the unsigned transaction -----

  function ParseTx(b: Bytes): Result<UnsignedTx, PsbtError>
  {
    var (version, u0) :- ReadU32(b);
    var (inputCount, u1) :- ReadSize(b[4..]);
    var (inputs, u2) :- ReadInputs(b[4 + u1..], inputCount);
    var (outputCount, u3) :- ReadSize(b[4 + u1 + u2..]);
    var (outputs, u4) :- ReadOutputs(b[4 + u1 + u2 + u3..], outputCount);
    var (locktime, u5) :- ReadU32(b[4 + u1 + u2 + u3 + u4..]);
    if |b| != 4 + u1 + u2 + u3 + u4 + 4 then Err(TrailingAfterTx)
    else Ok(UnsignedTx(SignOf(version), inputs, outputs, locktime))
  }

  function WriteTx(tx: UnsignedTx): Bytes
  {
    WriteU32(tx.version) + WriteVarint(|tx.inputs|) + WriteInputs(tx.inputs)
    + WriteVarint(|tx.outputs|) + WriteOutputs(tx.outputs) + WriteU32(tx.locktime)
  }

  predicate TxidsAre32(inputs: seq<TxIn>) { forall i | 0 <= i < |inputs| :: |inputs[i].prevTxid| == 32 }

  function SerializeTx(tx: UnsignedTx): Result<Bytes, PsbtError>
  {
    if TxidsAre32(tx.inputs) then Ok(WriteTx(tx)) else Err(BadTxidLength)
  }

  // ----- key-value maps -----

  function ReadKv(b: Bytes): (r: Read<Option<Kv>>)
    ensures r.Ok? ==> 0 < r.value.1 <= |b|
  {
    var (keyLen, u1) :- ReadSize(b);
    if keyLen == 0 then Ok((None, u1))
    else
      var (key, u2) :- Take(b[u1..], keyLen);
      var (valueLen, u3) :- ReadSize(b[u1 + keyLen..]);
      var (value, u4) :- Take(b[u1 + keyLen + u3..], valueLen);
      Ok((Some(Kv(key, value)), u1 + keyLen + u3 + valueLen))
  }

  function WriteKv(kv: Kv): Bytes
  {
    WriteVarint(|kv.key|) + kv.key + WriteVarint(|kv.value|) + kv.value
  }

  /** A whole map up to and including its terminator. */
  function ReadKvs(b: Bytes): (r: Read<seq<Kv>>)
    ensures r.Ok? ==> r.value.1 <= |b|
    decreases |b|
  {
    var (kv, u) :- ReadKv(b);
    if kv.None? then Ok(([], u))
    else
      var (rest, us) :- ReadKvs(b[u..]);
      Ok(([kv.value] + rest, u + us))
  }

  function ReadRawMap(b: Bytes): (r: Read<Bytes>)
    ensures r.Ok? ==> r.value.1 <= |b|
  {
    var (_, u) :- ReadKvs(b);
    Ok((b[..u], u))
  }

  function ReadRawMaps(b: Bytes, n: nat): (r: Read<seq<Bytes>>)
    ensures r.Ok? ==> r.value.1 <= |b| && |r.value.0| == n
    decreases n
  {
    if n == 0 then Ok(([], 0))
    else
      var (first, u) :- ReadRawMap(b);
      var (rest, us) :- ReadRawMaps(b[u..], n - 1);
      Ok(([first] + rest, u + us))
  }

  function MapKvs(m: Bytes): Result<seq<Kv>, PsbtError>
  {
    var (kvs, u) :- ReadKvs(m);
    if u != |m| then Err(TrailingInMap) else Ok(kvs)
  }

  /** The global map: the unsigned transaction apart, the other pairs in order. */
  function ReadGlobal(b: Bytes, txBytes: Option<Bytes>): (r: Read<Global>)
    ensures r.Ok? ==> r.value.1 <= |b|
    decreases |b|
  {
    var (kv, u) :- ReadKv(b);
    if kv.None? then Ok((Global(txBytes, []), u))
    else
      var isTx := kv.value.key == UNSIGNED_TX_KEY;
      if isTx && txBytes.Some? then Err(DuplicateUnsignedTx)
      else
        var (rest, us) :- ReadGlobal(b[u..], if isTx then Some(kv.value.value) else txBytes);
        Ok((Global(rest.tx, (if isTx then [] else [kv.value]) + rest.others), u + us))
  }

  // ----- the whole PSBT -----

  function ParsePsbt(b: Bytes): Result<Psbt, PsbtError>
  {
    var (magic, u0) :- Take(b, 5);
    if magic != MAGIC then Err(BadMagic)
    else
      var (global, u1) :- ReadGlobal(b[5..], None);
      if global.tx.None? then Err(MissingUnsignedTx)
      else
        var tx :- ParseTx(global.tx.value);
        var (inputMaps, u2) :- ReadRawMaps(b[5 + u1..], |tx.inputs|);
        var (outputMaps, u3) :- ReadRawMaps(b[5 + u1 + u2..], |tx.outputs|);
        if |b| != 5 + u1 + u2 + u3 then Err(TrailingAfterMaps)
        else Ok(Psbt(global.others, tx, inputMaps, outputMaps))
  }

  function WriteKvs(kvs: seq<Kv>): Bytes
  {
    if kvs == [] then [] else WriteKv(kvs[0]) + WriteKvs(kvs[1..])
  }

  function Flatten(parts: seq<Bytes>): Bytes
  {
    if parts == [] then [] else parts[0] + Flatten(parts[1..])
  }

  function WritePsbt(p: Psbt): Bytes
  {
    MAGIC + WriteKv(Kv(UNSIGNED_TX_KEY, WriteTx(p.tx))) + WriteKvs(p.others) + [0]
    + Flatten(p.inputMaps) + Flatten(p.outputMaps)
  }

  function SerializePsbt(p: Psbt): Result<Bytes, PsbtError>
  {
    if |p.inputMaps| != |p.tx.inputs| then Err(InputMapMismatch)
    else if |p.outputMaps| != |p.tx.outputs| then Err(OutputMapMismatch)
    else if !TxidsAre32(p.tx.inputs) then Err(BadTxidLength)
    else Ok(WritePsbt(p))
  }
}
