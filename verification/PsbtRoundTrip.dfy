/** Parsing and printing are inverse: on every well-formed PSBT, and on exactly the canonical byte strings. */
module PsbtRoundTrip {
  import opened Results
  import opened Digits
  import opened PsbtFormat

  // ----- what can be written and read back -----

  predicate IsU32(v: int) { 0 <= v < TWO32 }

  predicate GoodInput(i: TxIn) { |i.prevTxid| == 32 && IsU32(i.vout) && IsU32(i.sequence) }

  predicate GoodOutput(o: TxOut) { 0 <= o.value < TWO64 && |o.script| <= MAX_SAFE }

  predicate GoodTx(tx: UnsignedTx)
  {
    && -0x8000_0000 <= tx.version < 0x8000_0000 && IsU32(tx.locktime)
    && |tx.inputs| <= MAX_SAFE && |tx.outputs| <= MAX_SAFE
    && (forall i | 0 <= i < |tx.inputs| :: GoodInput(tx.inputs[i]))
    && (forall i | 0 <= i < |tx.outputs| :: GoodOutput(tx.outputs[i]))
  }

  predicate GoodKv(kv: Kv) { 0 < |kv.key| <= MAX_SAFE && |kv.value| <= MAX_SAFE }

  predicate GoodPsbt(p: Psbt)
  {
    && GoodTx(p.tx) && |WriteTx(p.tx)| <= MAX_SAFE
    && (forall i | 0 <= i < |p.others| :: GoodKv(p.others[i]) && p.others[i].key != UNSIGNED_TX_KEY)
    && |p.inputMaps| == |p.tx.inputs| && |p.outputMaps| == |p.tx.outputs|
    && (forall i | 0 <= i < |p.inputMaps| :: MapKvs(p.inputMaps[i]).Ok?)
    && (forall i | 0 <= i < |p.outputMaps| :: MapKvs(p.outputMaps[i]).Ok?)
  }

  // ----- printed, then parsed -----

  lemma U32ReadsBack(v: int, rest: Bytes)
    requires IsU32(v)
    ensures ReadU32(WriteU32(v) + rest) == Ok((v, 4))
  {
    hide Power, LittleEndian, FromLittle;
    Powers256();
    FromOfLittle(v, 4);
    assert (WriteU32(v) + rest)[..4] == LittleEndian(v, 4);
  }

  lemma U64ReadsBack(v: int, rest: Bytes)
    requires 0 <= v < TWO64
    ensures ReadU64(WriteU64(v) + rest) == Ok((v, 8))
  {
    hide Power, LittleEndian, FromLittle;
    Powers256();
    FromOfLittle(v, 8);
    assert (WriteU64(v) + rest)[..8] == LittleEndian(v, 8);
  }

  lemma VersionReadsBack(v: int, rest: Bytes)
    requires -0x8000_0000 <= v < 0x8000_0000
    ensures ReadU32(WriteU32(v) + rest).Ok? && ReadU32(WriteU32(v) + rest).value.1 == 4
    ensures SignOf(ReadU32(WriteU32(v) + rest).value.0) == v
  {
    hide ReadU32, LittleEndian;
    assert (v % TWO32) % TWO32 == v % TWO32;
    U32ReadsBack(v % TWO32, rest);
  }

  lemma InputReadsBack(i: TxIn, rest: Bytes)
    requires GoodInput(i)
    ensures ReadInput(WriteInput(i) + rest) == Ok((i, |WriteInput(i)|))
  {
    hide ReadSize, WriteVarint, WriteU32, ReadU32, Minimal;
    var b, z := WriteInput(i) + rest, WriteVarint(0);
    U32ReadsBack(i.vout, b[36..]);
    SizeReadsBack(0, b[36 + |z|..]);
    U32ReadsBack(i.sequence, rest);
    assert b[..32] == i.prevTxid;
    assert b[32..] == WriteU32(i.vout) + b[36..];
    assert b[36..] == z + b[36 + |z|..];
    assert b[36 + |z|..] == WriteU32(i.sequence) + rest;
  }

  lemma OutputReadsBack(o: TxOut, rest: Bytes)
    requires GoodOutput(o)
    ensures ReadOutput(WriteOutput(o) + rest) == Ok((o, |WriteOutput(o)|))
  {
    hide ReadSize, WriteVarint, ReadU64, WriteU64, Minimal;
    var b, n := WriteOutput(o) + rest, WriteVarint(|o.script|);
    U64ReadsBack(o.value, b[8..]);
    SizeReadsBack(|o.script|, b[8 + |n|..]);
    assert b == WriteU64(o.value) + b[8..];
    assert b[8..] == n + b[8 + |n|..];
    assert b[8 + |n|..][..|o.script|] == o.script;
  }

  lemma {:induction false} InputsReadBack(inputs: seq<TxIn>, rest: Bytes)
    requires forall i | 0 <= i < |inputs| :: GoodInput(inputs[i])
    ensures ReadInputs(WriteInputs(inputs) + rest, |inputs|) == Ok((inputs, |WriteInputs(inputs)|))
  {
    hide ReadInput, WriteInput, GoodInput;
    if inputs != [] {
      var tail := WriteInputs(inputs[1..]) + rest;
      var b := WriteInputs(inputs) + rest;
      Regroup(WriteInput(inputs[0]), WriteInputs(inputs[1..]), rest);
      assert b == WriteInput(inputs[0]) + tail;
      InputReadsBack(inputs[0], tail);
      InputsReadBack(inputs[1..], rest);
      assert b[|WriteInput(inputs[0])|..] == tail;
      assert inputs == [inputs[0]] + inputs[1..];
    }
  }

  lemma {:induction false} OutputsReadBack(outputs: seq<TxOut>, rest: Bytes)
    requires forall i | 0 <= i < |outputs| :: GoodOutput(outputs[i])
    ensures ReadOutputs(WriteOutputs(outputs) + rest, |outputs|) == Ok((outputs, |WriteOutputs(outputs)|))
  {
    hide ReadOutput, WriteOutput, GoodOutput;
    if outputs != [] {
      var tail := WriteOutputs(outputs[1..]) + rest;
      var b := WriteOutputs(outputs) + rest;
      Regroup(WriteOutput(outputs[0]), WriteOutputs(outputs[1..]), rest);
      assert b == WriteOutput(outputs[0]) + tail;
      OutputReadsBack(outputs[0], tail);
      OutputsReadBack(outputs[1..], rest);
      assert b[|WriteOutput(outputs[0])|..] == tail;
      assert outputs == [outputs[0]] + outputs[1..];
    }
  }

  /** Six parts in a row, seen from the end of each. */
  lemma SixParts(b: Bytes, v: Bytes, n: Bytes, ins: Bytes, m: Bytes, outs: Bytes, l: Bytes)
    requires |v| == 4 && b == v + n + ins + m + outs + l
    ensures var p1 := 4 + |n|;
            var p2 := p1 + |ins|;
            var p3 := p2 + |m|;
            var p4 := p3 + |outs|;
            && |b| == p4 + |l|
            && b == v + b[4..]
            && b[4..] == n + b[p1..]
            && b[p1..] == ins + b[p2..]
            && b[p2..] == m + b[p3..]
            && b[p3..] == outs + b[p4..]
            && b[p4..] == l == l + []
  {
  }

  lemma TxReadsBack(tx: UnsignedTx)
    requires GoodTx(tx)
    ensures ParseTx(WriteTx(tx)) == Ok(tx)
  {
    hide ReadSize, WriteVarint, WriteU32, ReadU32, ReadInputs, ReadOutputs, WriteInputs, WriteOutputs, Minimal, SignOf;
    var b, n, m := WriteTx(tx), WriteVarint(|tx.inputs|), WriteVarint(|tx.outputs|);
    var ins, outs := WriteInputs(tx.inputs), WriteOutputs(tx.outputs);
    var p1 := 4 + |n|;
    var p2 := p1 + |ins|;
    var p3 := p2 + |m|;
    var p4 := p3 + |outs|;
    SixParts(b, WriteU32(tx.version), n, ins, m, outs, WriteU32(tx.locktime));
    hide WriteTx;
    VersionReadsBack(tx.version, b[4..]);
    SizeReadsBack(|tx.inputs|, b[p1..]);
    InputsReadBack(tx.inputs, b[p2..]);
    SizeReadsBack(|tx.outputs|, b[p3..]);
    OutputsReadBack(tx.outputs, b[p4..]);
    U32ReadsBack(tx.locktime, []);
  }

  lemma KvReadsBack(kv: Kv, rest: Bytes)
    requires GoodKv(kv)
    ensures ReadKv(WriteKv(kv) + rest) == Ok((Some(kv), |WriteKv(kv)|))
  {
    hide ReadSize, WriteVarint, Minimal;
    var b, n, m := WriteKv(kv) + rest, WriteVarint(|kv.key|), WriteVarint(|kv.value|);
    var p1 := |n|;
    var p2 := p1 + |kv.key|;
    var p3 := p2 + |m|;
    SizeReadsBack(|kv.key|, b[p1..]);
    SizeReadsBack(|kv.value|, b[p3..]);
    assert b == n + b[p1..];
    assert b[p1..][..|kv.key|] == kv.key;
    assert b[p2..] == m + b[p3..];
    assert b[p3..][..|kv.value|] == kv.value;
  }

  lemma TerminatorReads(rest: Bytes)
    ensures ReadKv([0] + rest) == Ok((None, 1))
  {
  }

  lemma {:induction false} OthersReadBack(others: seq<Kv>, tx: Bytes, rest: Bytes)
    requires forall i | 0 <= i < |others| :: GoodKv(others[i]) && others[i].key != UNSIGNED_TX_KEY
    ensures ReadGlobal(WriteKvs(others) + [0] + rest, Some(tx)) == Ok((Global(Some(tx), others), |WriteKvs(others)| + 1))
  {
    hide ReadKv, WriteKv, GoodKv;
    var b := WriteKvs(others) + [0] + rest;
    if others == [] {
      TerminatorReads(rest);
      assert b == [0] + rest;
    } else {
      var tail := WriteKvs(others[1..]) + [0] + rest;
      assert b == WriteKv(others[0]) + tail;
      KvReadsBack(others[0], tail);
      OthersReadBack(others[1..], tx, rest);
      assert b[|WriteKv(others[0])|..] == tail;
      assert others == [others[0]] + others[1..];
    }
  }

  lemma GlobalReadsBack(others: seq<Kv>, tx: Bytes, rest: Bytes)
    requires |tx| <= MAX_SAFE
    requires forall i | 0 <= i < |others| :: GoodKv(others[i]) && others[i].key != UNSIGNED_TX_KEY
    ensures var first := WriteKv(Kv(UNSIGNED_TX_KEY, tx));
            ReadGlobal(first + WriteKvs(others) + [0] + rest, None)
            == Ok((Global(Some(tx), others), |first| + |WriteKvs(others)| + 1))
  {
    hide ReadKv, WriteKv, WriteKvs;
    var first, tail := WriteKv(Kv(UNSIGNED_TX_KEY, tx)), WriteKvs(others) + [0] + rest;
    var b := first + WriteKvs(others) + [0] + rest;
    assert b == first + tail;
    KvReadsBack(Kv(UNSIGNED_TX_KEY, tx), tail);
    OthersReadBack(others, tx, rest);
    assert b[|first|..] == tail;
    assert [] + others == others;
  }

  /** A pair that was read is read again when more bytes follow. */
  lemma KvIgnoresRest(b: Bytes, rest: Bytes)
    requires ReadKv(b).Ok?
    ensures ReadKv(b + rest) == ReadKv(b)
  {
    hide ReadSize;
    var u1 := ReadSize(b).value.1;
    SizeIgnoresRest(b, rest);
    if ReadSize(b).value.0 != 0 {
      var p := u1 + ReadSize(b).value.0;
      SizeIgnoresRest(b[p..], rest);
      assert (b + rest)[u1..] == b[u1..] + rest;
      assert (b + rest)[p..] == b[p..] + rest;
      var q := p + ReadSize(b[p..]).value.1;
      assert (b + rest)[q..] == b[q..] + rest;
      assert (b[u1..] + rest)[..p - u1] == b[u1..][..p - u1];
      var n := ReadSize(b[p..]).value.0;
      assert (b[q..] + rest)[..n] == b[q..][..n];
    }
  }

  lemma SizeIgnoresRest(b: Bytes, rest: Bytes)
    requires ReadSize(b).Ok?
    ensures ReadSize(b + rest) == ReadSize(b)
  {
    hide FromLittle;
    var u := ReadSize(b).value.1;
    if u > 1 {
      assert (b + rest)[1..u] == b[1..u];
    }
  }

  lemma {:induction false} KvsIgnoreRest(b: Bytes, rest: Bytes)
    requires ReadKvs(b).Ok?
    ensures ReadKvs(b + rest) == ReadKvs(b)
    decreases |b|
  {
    hide ReadKv;
    KvIgnoresRest(b, rest);
    if ReadKv(b).value.0.Some? {
      var u := ReadKv(b).value.1;
      assert (b + rest)[u..] == b[u..] + rest;
      KvsIgnoreRest(b[u..], rest);
    }
  }

  lemma {:induction false} MapsReadBack(maps: seq<Bytes>, rest: Bytes)
    requires forall i | 0 <= i < |maps| :: MapKvs(maps[i]).Ok?
    ensures ReadRawMaps(Flatten(maps) + rest, |maps|) == Ok((maps, |Flatten(maps)|))
  {
    hide ReadRawMap, MapKvs;
    if maps != [] {
      var tail := Flatten(maps[1..]) + rest;
      var b := Flatten(maps) + rest;
      RawMapReadsBack(maps[0], tail);
      MapsReadBack(maps[1..], rest);
      assert b == maps[0] + tail;
      assert b[|maps[0]|..] == tail;
      assert maps == [maps[0]] + maps[1..];
    }
  }

  lemma RawMapReadsBack(m: Bytes, tail: Bytes)
    requires MapKvs(m).Ok?
    ensures ReadRawMap(m + tail) == Ok((m, |m|))
  {
    hide ReadKvs;
    KvsIgnoreRest(m, tail);
    assert (m + tail)[..|m|] == m;
  }

  /** Every well-formed PSBT is parsed back from its serialization. */
  lemma ParsePrint(p: Psbt)
    requires GoodPsbt(p)
    ensures SerializePsbt(p).Ok? && ParsePsbt(SerializePsbt(p).value) == Ok(p)
  {
    hide ReadGlobal, ReadRawMaps, WriteKv, WriteKvs, ParseTx, WriteTx, MapKvs, Flatten, GoodKv;
    var b, tx := WritePsbt(p), WriteTx(p.tx);
    var first, others := WriteKv(Kv(UNSIGNED_TX_KEY, tx)), WriteKvs(p.others);
    var ins, outs := Flatten(p.inputMaps), Flatten(p.outputMaps);
    var q1 := 5 + |first| + |others| + 1;
    var q2 := q1 + |ins|;
    TxReadsBack(p.tx);
    GlobalReadsBack(p.others, tx, b[q1..]);
    MapsReadBack(p.inputMaps, b[q2..]);
    MapsReadBack(p.outputMaps, []);
    assert b[..5] == MAGIC;
    assert b[5..] == first + others + [0] + b[q1..];
    assert b[q1..] == ins + b[q2..];
    assert b[q2..] == outs + [];
  }

  // ----- parsed, then printed -----

  /** Every CompactSize among the first n inputs is minimal. */
  ghost predicate CanonicalInputs(b: Bytes, n: nat)
    decreases n
  {
    n == 0 || (ReadInput(b).Ok? && Minimal(b[36..]) && CanonicalInputs(b[ReadInput(b).value.1..], n - 1))
  }

  ghost predicate CanonicalOutputs(b: Bytes, n: nat)
    decreases n
  {
    n == 0 || (ReadOutput(b).Ok? && Minimal(b[8..]) && CanonicalOutputs(b[ReadOutput(b).value.1..], n - 1))
  }

  ghost predicate CanonicalTx(b: Bytes)
    requires ParseTx(b).Ok?
  {
    hide ReadSize, ReadU32, ReadInputs, ReadOutputs;
    var (n, u1) := ReadSize(b[4..]).value;
    var u2 := ReadInputs(b[4 + u1..], n).value.1;
    var (m, u3) := ReadSize(b[4 + u1 + u2..]).value;
    && Minimal(b[4..]) && CanonicalInputs(b[4 + u1..], n)
    && Minimal(b[4 + u1 + u2..]) && CanonicalOutputs(b[4 + u1 + u2 + u3..], m)
  }

  ghost predicate CanonicalKv(b: Bytes)
  {
    && ReadKv(b).Ok? && Minimal(b)
    && (ReadKv(b).value.0.Some? ==> Minimal(b[ReadSize(b).value.1 + ReadSize(b).value.0..]))
  }

  ghost predicate CanonicalKvs(b: Bytes)
    decreases |b|
  {
    CanonicalKv(b) && (ReadKv(b).value.0.Some? ==> CanonicalKvs(b[ReadKv(b).value.1..]))
  }

  /**
   * Accepted, the unsigned transaction first in the global map, and no CompactSize of the global map
   * or of the transaction longer than it need be. The input and output maps may be anything.
   */
  ghost predicate Canonical(b: Bytes)
  {
    && ParsePsbt(b).Ok?
    && ReadKv(b[5..]).Ok? && ReadKv(b[5..]).value.0.Some? && ReadKv(b[5..]).value.0.value.key == UNSIGNED_TX_KEY
    && CanonicalKvs(b[5..])
    && ParseTx(ReadKv(b[5..]).value.0.value.value).Ok?
    && CanonicalTx(ReadKv(b[5..]).value.0.value.value)
  }

  lemma U32IsWritten(b: Bytes)
    requires |b| >= 4
    ensures FromLittle(b[..4]) < TWO32 && LittleEndian(FromLittle(b[..4]), 4) == b[..4]
    ensures WriteU32(FromLittle(b[..4])) == b[..4] && WriteU32(SignOf(FromLittle(b[..4]))) == b[..4]
  {
    hide Power, LittleEndian, FromLittle;
    Powers256();
    FromLittleBound(b[..4]);
    LittleOfFrom(b[..4]);
  }

  lemma SizeIsWritten(b: Bytes)
    requires ReadSize(b).Ok? && Minimal(b)
    ensures WriteVarint(ReadSize(b).value.0) == b[..ReadSize(b).value.1]
  {
    MinimalIsWritten(b);
  }

  lemma InputIsWritten(b: Bytes)
    requires ReadInput(b).Ok? && Minimal(b[36..])
    ensures WriteInput(ReadInput(b).value.0) == b[..ReadInput(b).value.1]
  {
    hide ReadSize, WriteVarint, WriteU32, Minimal, FromLittle, LittleEndian;
    var (n, u) := ReadSize(b[36..]).value;
    U32IsWritten(b[32..]);
    SizeIsWritten(b[36..]);
    U32IsWritten(b[36 + u..]);
    assert b[..36 + u + 4] == b[..32] + b[32..][..4] + b[36..][..u] + b[36 + u..][..4];
  }

  lemma OutputIsWritten(b: Bytes)
    requires ReadOutput(b).Ok? && Minimal(b[8..])
    ensures WriteOutput(ReadOutput(b).value.0) == b[..ReadOutput(b).value.1]
  {
    hide ReadSize, WriteVarint, Minimal, FromLittle, LittleEndian, Power;
    var (n, u) := ReadSize(b[8..]).value;
    Powers256();
    FromLittleBound(b[..8]);
    LittleOfFrom(b[..8]);
    SizeIsWritten(b[8..]);
    assert b[..8 + u + n] == b[..8] + b[8..][..u] + b[8 + u..][..n];
  }

  lemma {:induction false} InputsAreWritten(b: Bytes, n: nat)
    requires ReadInputs(b, n).Ok? && CanonicalInputs(b, n)
    ensures WriteInputs(ReadInputs(b, n).value.0) == b[..ReadInputs(b, n).value.1]
    decreases n
  {
    hide ReadInput, WriteInput, Minimal;
    if n > 0 {
      var u := ReadInput(b).value.1;
      InputIsWritten(b);
      InputsAreWritten(b[u..], n - 1);
      var us := ReadInputs(b[u..], n - 1).value.1;
      assert ReadInputs(b, n).value.0[1..] == ReadInputs(b[u..], n - 1).value.0;
      assert b[..u + us] == b[..u] + b[u..][..us];
    }
  }

  lemma {:induction false} OutputsAreWritten(b: Bytes, n: nat)
    requires ReadOutputs(b, n).Ok? && CanonicalOutputs(b, n)
    ensures WriteOutputs(ReadOutputs(b, n).value.0) == b[..ReadOutputs(b, n).value.1]
    decreases n
  {
    hide ReadOutput, WriteOutput, Minimal;
    if n > 0 {
      var u := ReadOutput(b).value.1;
      OutputIsWritten(b);
      OutputsAreWritten(b[u..], n - 1);
      var us := ReadOutputs(b[u..], n - 1).value.1;
      assert ReadOutputs(b, n).value.0[1..] == ReadOutputs(b[u..], n - 1).value.0;
      assert b[..u + us] == b[..u] + b[u..][..us];
    }
  }

  lemma TxIsWritten(b: Bytes)
    requires ParseTx(b).Ok? && CanonicalTx(b)
    ensures WriteTx(ParseTx(b).value) == b
    ensures TxidsAre32(ParseTx(b).value.inputs)
  {
    hide ReadSize, WriteVarint, WriteU32, ReadInputs, ReadOutputs, WriteInputs, WriteOutputs, Minimal, SignOf,
         CanonicalInputs, CanonicalOutputs, FromLittle, LittleEndian;
    var (n, u1) := ReadSize(b[4..]).value;
    var p1 := 4 + u1;
    var u2 := ReadInputs(b[p1..], n).value.1;
    var p2 := p1 + u2;
    var (m, u3) := ReadSize(b[p2..]).value;
    var p3 := p2 + u3;
    var u4 := ReadOutputs(b[p3..], m).value.1;
    var p4 := p3 + u4;
    U32IsWritten(b);
    SizeIsWritten(b[4..]);
    InputsAreWritten(b[p1..], n);
    ReadInputsHave32(b[p1..], n);
    SizeIsWritten(b[p2..]);
    OutputsAreWritten(b[p3..], m);
    U32IsWritten(b[p4..]);
    assert b == b[..4] + b[4..][..u1] + b[p1..][..u2] + b[p2..][..u3] + b[p3..][..u4] + b[p4..][..4];
  }

  lemma {:induction false} ReadInputsHave32(b: Bytes, n: nat)
    requires ReadInputs(b, n).Ok?
    ensures TxidsAre32(ReadInputs(b, n).value.0)
    decreases n
  {
    if n > 0 {
      ReadInputsHave32(b[ReadInput(b).value.1..], n - 1);
    }
  }

  lemma KvIsWritten(b: Bytes)
    requires CanonicalKv(b)
    ensures var (kv, u) := ReadKv(b).value;
            b[..u] == if kv.Some? then WriteKv(kv.value) else [0]
  {
    hide ReadVarint, WriteVarint, Minimal;
    var (n, u1) := ReadSize(b).value;
    SizeIsWritten(b);
    if n == 0 {
      assert WriteVarint(0) == [0] by { ZeroByte(); }
    } else {
      var p := u1 + n;
      var (m, u2) := ReadSize(b[p..]).value;
      SizeIsWritten(b[p..]);
      var key, value := b[u1..][..n], b[p + u2..][..m];
      assert ReadKv(b).value == (Some(Kv(key, value)), p + u2 + m);
      assert WriteKv(Kv(key, value)) == b[..u1] + key + b[p..][..u2] + value;
      assert b[..p + u2 + m] == b[..u1] + b[u1..][..n] + b[p..][..u2] + b[p + u2..][..m];
    }
  }

  lemma ZeroByte()
    ensures WriteVarint(0) == [0]
  {
  }

  lemma {:induction false} OthersAreWritten(b: Bytes, tx: Bytes)
    requires ReadGlobal(b, Some(tx)).Ok? && CanonicalKvs(b)
    ensures var (g, u) := ReadGlobal(b, Some(tx)).value;
            g.tx == Some(tx) && b[..u] == WriteKvs(g.others) + [0]
    decreases |b|
  {
    hide ReadKv, WriteKv, CanonicalKv;
    var (kv, u) := ReadKv(b).value;
    KvIsWritten(b);
    if kv.Some? {
      OthersAreWritten(b[u..], tx);
      var (g, us) := ReadGlobal(b[u..], Some(tx)).value;
      assert ([kv.value] + g.others)[1..] == g.others;
      assert b[..u + us] == b[..u] + b[u..][..us];
      assert WriteKvs([kv.value] + g.others) + [0] == WriteKv(kv.value) + (WriteKvs(g.others) + [0]);
    }
  }

  lemma {:induction false} MapsAreWritten(b: Bytes, n: nat)
    requires ReadRawMaps(b, n).Ok?
    ensures Flatten(ReadRawMaps(b, n).value.0) == b[..ReadRawMaps(b, n).value.1]
    decreases n
  {
    hide ReadKvs;
    if n > 0 {
      var u := ReadRawMap(b).value.1;
      MapsAreWritten(b[u..], n - 1);
      var us := ReadRawMaps(b[u..], n - 1).value.1;
      assert ReadRawMaps(b, n).value.0[1..] == ReadRawMaps(b[u..], n - 1).value.0;
      assert b[..u + us] == b[..u] + b[u..][..us];
    }
  }

  /** A canonical global map with the transaction first is what the writer writes for it. */
  lemma GlobalIsWritten(b: Bytes)
    requires ReadGlobal(b, None).Ok? && CanonicalKvs(b)
    requires ReadKv(b).value.0.Some? && ReadKv(b).value.0.value.key == UNSIGNED_TX_KEY
    ensures var (g, u) := ReadGlobal(b, None).value;
            var kv := ReadKv(b).value.0.value;
            g.tx == Some(kv.value) && b[..u] == WriteKv(kv) + WriteKvs(g.others) + [0]
  {
    hide ReadKv, WriteKv, WriteKvs, CanonicalKv;
    var (kv, u) := ReadKv(b).value;
    KvIsWritten(b);
    OthersAreWritten(b[u..], kv.value.value);
    var (g, us) := ReadGlobal(b[u..], Some(kv.value.value)).value;
    assert [] + g.others == g.others;
    assert ReadGlobal(b, None).value == (g, u + us);
    assert b[..u + us] == b[..u] + b[u..][..us];
  }

  lemma CanonicalIsPrinted(b: Bytes)
    ensures Canonical(b) ==> ParsePsbt(b).Ok? && SerializePsbt(ParsePsbt(b).value) == Ok(b)
  {
    hide ReadKv, WriteKv, WriteKvs, ParseTx, WriteTx, Flatten, CanonicalTx, CanonicalKvs, ReadRawMaps, TxidsAre32, ReadGlobal;
    if Canonical(b) {
      GlobalIsWritten(b[5..]);
      var (g, u1) := ReadGlobal(b[5..], None).value;
      var tx := ParseTx(g.tx.value).value;
      TxIsWritten(g.tx.value);
      var q1 := 5 + u1;
      MapsAreWritten(b[q1..], |tx.inputs|);
      var u2 := ReadRawMaps(b[q1..], |tx.inputs|).value.1;
      var q2 := q1 + u2;
      MapsAreWritten(b[q2..], |tx.outputs|);
      assert Kv(UNSIGNED_TX_KEY, WriteTx(tx)) == ReadKv(b[5..]).value.0.value;
      var u3 := ReadRawMaps(b[q2..], |tx.outputs|).value.1;
      var p := ParsePsbt(b).value;
      assert p == Psbt(g.others, tx, ReadRawMaps(b[q1..], |tx.inputs|).value.0, ReadRawMaps(b[q2..], |tx.outputs|).value.0);
      assert b == b[..5] + b[5..][..u1] + b[q1..][..u2] + b[q2..][..u3];
      assert WritePsbt(p) == b;
    }
  }

  // ----- what is printed is canonical -----

  lemma {:induction false} WrittenInputsCanonical(inputs: seq<TxIn>, rest: Bytes)
    requires forall i | 0 <= i < |inputs| :: GoodInput(inputs[i])
    ensures CanonicalInputs(WriteInputs(inputs) + rest, |inputs|)
  {
    hide ReadInput, WriteInput, Minimal, GoodInput;
    if inputs != [] {
      var tail := WriteInputs(inputs[1..]) + rest;
      var b := WriteInputs(inputs) + rest;
      Regroup(WriteInput(inputs[0]), WriteInputs(inputs[1..]), rest);
      assert b == WriteInput(inputs[0]) + tail;
      InputReadsBack(inputs[0], tail);
      WrittenInputMinimal(inputs[0], tail);
      assert b[|WriteInput(inputs[0])|..] == tail;
      WrittenInputsCanonical(inputs[1..], rest);
    }
  }

  lemma WrittenInputMinimal(i: TxIn, tail: Bytes)
    requires GoodInput(i)
    ensures |WriteInput(i) + tail| >= 36 && Minimal((WriteInput(i) + tail)[36..])
  {
    hide Minimal, WriteVarint, WriteU32;
    var b, after := WriteInput(i) + tail, WriteU32(i.sequence) + tail;
    assert b == i.prevTxid + WriteU32(i.vout) + (WriteVarint(0) + after);
    assert b[36..] == WriteVarint(0) + after;
    SizeReadsBack(0, after);
  }

  lemma {:induction false} WrittenOutputsCanonical(outputs: seq<TxOut>, rest: Bytes)
    requires forall i | 0 <= i < |outputs| :: GoodOutput(outputs[i])
    ensures CanonicalOutputs(WriteOutputs(outputs) + rest, |outputs|)
  {
    hide ReadOutput, WriteOutput, Minimal, GoodOutput;
    if outputs != [] {
      var tail := WriteOutputs(outputs[1..]) + rest;
      var b := WriteOutputs(outputs) + rest;
      Regroup(WriteOutput(outputs[0]), WriteOutputs(outputs[1..]), rest);
      assert b == WriteOutput(outputs[0]) + tail;
      OutputReadsBack(outputs[0], tail);
      WrittenOutputMinimal(outputs[0], tail);
      assert b[|WriteOutput(outputs[0])|..] == tail;
      WrittenOutputsCanonical(outputs[1..], rest);
    }
  }

  lemma WrittenOutputMinimal(o: TxOut, tail: Bytes)
    requires GoodOutput(o)
    ensures |WriteOutput(o) + tail| >= 8 && Minimal((WriteOutput(o) + tail)[8..])
  {
    hide Minimal, WriteVarint, WriteU64;
    var b := WriteOutput(o) + tail;
    assert b[8..] == WriteVarint(|o.script|) + (o.script + tail);
    SizeReadsBack(|o.script|, o.script + tail);
  }

  lemma WrittenTxCanonical(tx: UnsignedTx)
    requires GoodTx(tx)
    ensures ParseTx(WriteTx(tx)).Ok? && CanonicalTx(WriteTx(tx))
  {
    hide ReadSize, WriteVarint, WriteU32, ReadU32, ReadInputs, ReadOutputs, WriteInputs, WriteOutputs, Minimal,
         CanonicalInputs, CanonicalOutputs;
    TxReadsBack(tx);
    var b, n, m := WriteTx(tx), WriteVarint(|tx.inputs|), WriteVarint(|tx.outputs|);
    var ins, outs := WriteInputs(tx.inputs), WriteOutputs(tx.outputs);
    var p1 := 4 + |n|;
    var p2 := p1 + |ins|;
    var p3 := p2 + |m|;
    var p4 := p3 + |outs|;
    SixParts(b, WriteU32(tx.version), n, ins, m, outs, WriteU32(tx.locktime));
    SizeReadsBack(|tx.inputs|, b[p1..]);
    InputsReadBack(tx.inputs, b[p2..]);
    WrittenInputsCanonical(tx.inputs, b[p2..]);
    SizeReadsBack(|tx.outputs|, b[p3..]);
    WrittenOutputsCanonical(tx.outputs, b[p4..]);
  }

  lemma WrittenKvCanonical(kv: Kv, rest: Bytes)
    requires GoodKv(kv)
    ensures CanonicalKv(WriteKv(kv) + rest)
  {
    hide ReadSize, WriteVarint, Minimal;
    KvReadsBack(kv, rest);
    var b, n, m := WriteKv(kv) + rest, WriteVarint(|kv.key|), WriteVarint(|kv.value|);
    var p := |n| + |kv.key|;
    SizeReadsBack(|kv.key|, b[|n|..]);
    SizeReadsBack(|kv.value|, b[p + |m|..]);
    assert b == n + b[|n|..];
    assert b[p..] == m + b[p + |m|..];
  }

  lemma {:induction false} WrittenKvsCanonical(kvs: seq<Kv>, rest: Bytes)
    requires forall i | 0 <= i < |kvs| :: GoodKv(kvs[i])
    ensures CanonicalKvs(WriteKvs(kvs) + [0] + rest)
  {
    hide ReadKv, WriteKv, CanonicalKv, GoodKv;
    var b := WriteKvs(kvs) + [0] + rest;
    if kvs == [] {
      assert b == [0] + rest;
      TerminatorReads(rest);
      assert CanonicalKv(b) by { ZeroCanonical(rest); }
    } else {
      var tail := WriteKvs(kvs[1..]) + [0] + rest;
      assert b == WriteKv(kvs[0]) + tail;
      KvReadsBack(kvs[0], tail);
      WrittenKvCanonical(kvs[0], tail);
      assert b[|WriteKv(kvs[0])|..] == tail;
      WrittenKvsCanonical(kvs[1..], rest);
    }
  }

  lemma ZeroCanonical(rest: Bytes)
    ensures CanonicalKv([0] + rest)
  {
  }

  /** The printed global map, seen as its first pair or as a list of pairs. */
  lemma PrintedGlobal(p: Psbt)
    ensures var b, first := WritePsbt(p), Kv(UNSIGNED_TX_KEY, WriteTx(p.tx));
            var tail := Flatten(p.inputMaps) + Flatten(p.outputMaps);
            && |b| >= 5
            && b[5..] == WriteKvs([first] + p.others) + [0] + tail
            && b[5..] == WriteKv(first) + (WriteKvs(p.others) + [0] + tail)
  {
    hide WriteKv, WriteTx, Flatten;
    var all := [Kv(UNSIGNED_TX_KEY, WriteTx(p.tx))] + p.others;
    assert all[1..] == p.others;
  }

  lemma PrintedIsCanonical(p: Psbt)
    requires GoodPsbt(p)
    ensures Canonical(WritePsbt(p))
  {
    ParsePrint(p);
    assert ParsePsbt(WritePsbt(p)).Ok?;
    hide ReadKv, WriteKv, ParseTx, WriteTx, CanonicalTx, CanonicalKvs, MapKvs, Flatten, GoodKv, ParsePsbt, WritePsbt,
         WriteKvs, SerializePsbt;
    WrittenTxCanonical(p.tx);
    var first := Kv(UNSIGNED_TX_KEY, WriteTx(p.tx));
    var tail := Flatten(p.inputMaps) + Flatten(p.outputMaps);
    FirstIsGood(p);
    PrintedGlobal(p);
    WrittenKvsCanonical([first] + p.others, tail);
    KvReadsBack(first, WriteKvs(p.others) + [0] + tail);
  }

  lemma FirstIsGood(p: Psbt)
    requires GoodPsbt(p)
    ensures GoodKv(Kv(UNSIGNED_TX_KEY, WriteTx(p.tx)))
    ensures forall i | 0 <= i < |p.others| :: GoodKv(p.others[i])
  {
  }

  // ----- whatever is accepted is well-formed -----

  lemma U32InRange(b: Bytes)
    requires ReadU32(b).Ok?
    ensures IsU32(ReadU32(b).value.0) && ReadU32(b).value.1 == 4 && |b| >= 4
    ensures -0x8000_0000 <= SignOf(ReadU32(b).value.0) < 0x8000_0000
  {
    hide Power, FromLittle;
    Powers256();
    FromLittleBound(b[..4]);
  }

  /** No encoding of a size is shorter than the writer's. */
  lemma SizeShortest(b: Bytes)
    requires ReadSize(b).Ok?
    ensures |WriteVarint(ReadSize(b).value.0)| <= ReadSize(b).value.1
  {
    hide Power, FromLittle, LittleEndian;
    Powers256();
    var u := ReadSize(b).value.1;
    if u > 1 {
      FromLittleBound(b[1..u]);
    }
  }

  lemma InputIsGood(b: Bytes)
    requires ReadInput(b).Ok?
    ensures GoodInput(ReadInput(b).value.0) && |WriteInput(ReadInput(b).value.0)| <= ReadInput(b).value.1
  {
    hide ReadSize, WriteVarint, ReadU32, WriteU32;
    U32InRange(b[32..]);
    SizeShortest(b[36..]);
    U32InRange(b[36 + ReadSize(b[36..]).value.1..]);
  }

  lemma OutputIsGood(b: Bytes)
    requires ReadOutput(b).Ok?
    ensures GoodOutput(ReadOutput(b).value.0) && |WriteOutput(ReadOutput(b).value.0)| <= ReadOutput(b).value.1
  {
    hide ReadSize, WriteVarint, WriteU64, Power, FromLittle;
    Powers256();
    FromLittleBound(b[..8]);
    SizeShortest(b[8..]);
  }

  lemma {:induction false} InputsAreGood(b: Bytes, n: nat)
    requires ReadInputs(b, n).Ok?
    ensures var (inputs, u) := ReadInputs(b, n).value;
            |WriteInputs(inputs)| <= u && forall i | 0 <= i < |inputs| :: GoodInput(inputs[i])
    decreases n
  {
    hide ReadInput, WriteInput, GoodInput;
    if n > 0 {
      var u := ReadInput(b).value.1;
      InputIsGood(b);
      InputsAreGood(b[u..], n - 1);
      assert ReadInputs(b, n).value.0[1..] == ReadInputs(b[u..], n - 1).value.0;
    }
  }

  lemma {:induction false} OutputsAreGood(b: Bytes, n: nat)
    requires ReadOutputs(b, n).Ok?
    ensures var (outputs, u) := ReadOutputs(b, n).value;
            |WriteOutputs(outputs)| <= u && forall i | 0 <= i < |outputs| :: GoodOutput(outputs[i])
    decreases n
  {
    hide ReadOutput, WriteOutput, GoodOutput;
    if n > 0 {
      var u := ReadOutput(b).value.1;
      OutputIsGood(b);
      OutputsAreGood(b[u..], n - 1);
      assert ReadOutputs(b, n).value.0[1..] == ReadOutputs(b[u..], n - 1).value.0;
    }
  }

  lemma ParsedTxIsGood(b: Bytes)
    requires ParseTx(b).Ok?
    ensures GoodTx(ParseTx(b).value) && |WriteTx(ParseTx(b).value)| <= |b|
  {
    hide ReadSize, WriteVarint, WriteU32, ReadU32, ReadInputs, ReadOutputs, WriteInputs, WriteOutputs, SignOf,
         GoodInput, GoodOutput;
    var (n, u1) := ReadSize(b[4..]).value;
    var u2 := ReadInputs(b[4 + u1..], n).value.1;
    var (m, u3) := ReadSize(b[4 + u1 + u2..]).value;
    var u4 := ReadOutputs(b[4 + u1 + u2 + u3..], m).value.1;
    U32InRange(b);
    SizeShortest(b[4..]);
    InputsAreGood(b[4 + u1..], n);
    SizeShortest(b[4 + u1 + u2..]);
    OutputsAreGood(b[4 + u1 + u2 + u3..], m);
    U32InRange(b[4 + u1 + u2 + u3 + u4..]);
  }

  lemma KvIsGood(b: Bytes)
    requires ReadKv(b).Ok? && ReadKv(b).value.0.Some?
    ensures GoodKv(ReadKv(b).value.0.value)
  {
  }

  lemma {:induction false} GlobalIsGood(b: Bytes, tx: Option<Bytes>)
    requires ReadGlobal(b, tx).Ok?
    ensures var g := ReadGlobal(b, tx).value.0;
            && (forall i | 0 <= i < |g.others| :: GoodKv(g.others[i]) && g.others[i].key != UNSIGNED_TX_KEY)
            && (g.tx.Some? ==> g.tx == tx || |g.tx.value| <= MAX_SAFE)
    decreases |b|
  {
    hide ReadKv, GoodKv;
    var (kv, u) := ReadKv(b).value;
    if kv.Some? {
      KvIsGood(b);
      assert |kv.value.value| <= MAX_SAFE by { GoodKvValue(kv.value); }
      GlobalIsGood(b[u..], if kv.value.key == UNSIGNED_TX_KEY then Some(kv.value.value) else tx);
    }
  }

  lemma GoodKvValue(kv: Kv)
    requires GoodKv(kv)
    ensures |kv.value| <= MAX_SAFE
  {
  }

  /** A pair is decided by the bytes it uses. */
  lemma KvOwnBytes(b: Bytes, n: nat)
    requires ReadKv(b).Ok? && ReadKv(b).value.1 <= n <= |b|
    ensures ReadKv(b[..n]) == ReadKv(b)
  {
    hide ReadSize;
    var (k, u1) := ReadSize(b).value;
    SizeOwnBytes(b, n);
    if k != 0 {
      var p := u1 + k;
      var (m, u2) := ReadSize(b[p..]).value;
      assert b[..n][u1..] == b[u1..][..n - u1];
      assert b[..n][p..] == b[p..][..n - p];
      SizeOwnBytes(b[p..], n - p);
      var q := p + u2;
      assert b[..n][q..] == b[q..][..n - q];
      assert b[u1..][..n - u1][..k] == b[u1..][..k];
      assert b[q..][..n - q][..m] == b[q..][..m];
    }
  }

  lemma SizeOwnBytes(b: Bytes, n: nat)
    requires ReadSize(b).Ok? && ReadSize(b).value.1 <= n <= |b|
    ensures ReadSize(b[..n]) == ReadSize(b)
  {
    hide FromLittle;
    var u := ReadSize(b).value.1;
    if u > 1 {
      assert b[..n][1..u] == b[1..u];
    }
  }

  lemma {:induction false} KvsOwnBytes(b: Bytes)
    requires ReadKvs(b).Ok?
    ensures ReadKvs(b[..ReadKvs(b).value.1]) == ReadKvs(b)
    decreases |b|
  {
    hide ReadKv;
    var (kv, u) := ReadKv(b).value;
    var n := ReadKvs(b).value.1;
    KvOwnBytes(b, n);
    if kv.Some? {
      KvsOwnBytes(b[u..]);
      assert b[..n][u..] == b[u..][..n - u];
    }
  }

  lemma {:induction false} MapsAreGood(b: Bytes, n: nat)
    requires ReadRawMaps(b, n).Ok?
    ensures forall i | 0 <= i < n :: MapKvs(ReadRawMaps(b, n).value.0[i]).Ok?
    decreases n
  {
    hide ReadKvs;
    if n > 0 {
      KvsOwnBytes(b);
      MapsAreGood(b[ReadRawMap(b).value.1..], n - 1);
    }
  }

  lemma ParsedIsGood(b: Bytes)
    ensures ParsePsbt(b).Ok? ==> GoodPsbt(ParsePsbt(b).value)
  {
    hide ReadGlobal, ParseTx, WriteTx, ReadRawMaps, MapKvs, GoodTx, GoodKv;
    if ParsePsbt(b).Ok? {
      var (g, u1) := ReadGlobal(b[5..], None).value;
      GlobalIsGood(b[5..], None);
      ParsedTxIsGood(g.tx.value);
      var tx := ParseTx(g.tx.value).value;
      MapsAreGood(b[5 + u1..], |tx.inputs|);
      MapsAreGood(b[5 + u1 + ReadRawMaps(b[5 + u1..], |tx.inputs|).value.1..], |tx.outputs|);
    }
  }

  /** Which accepted byte strings come back unchanged: exactly the canonical ones. */
  lemma PrintParseIff(b: Bytes)
    ensures ParsePsbt(b).Ok? ==> (SerializePsbt(ParsePsbt(b).value) == Ok(b) <==> Canonical(b))
  {
    hide ParsePsbt, WritePsbt, Canonical, GoodPsbt;
    if ParsePsbt(b).Ok? {
      ParsedIsGood(b);
      PrintedIsCanonical(ParsePsbt(b).value);
      assert SerializePsbt(ParsePsbt(b).value) == Ok(WritePsbt(ParsePsbt(b).value)) by { ParsePrint(ParsePsbt(b).value); }
      if Canonical(b) {
        CanonicalIsPrinted(b);
      }
    }
  }

  /** Printing is a normal form: what is accepted stays the same PSBT through any further round. */
  lemma PrintNormalises(b: Bytes)
    ensures match ParsePsbt(b)
            case Ok(p) => SerializePsbt(p).Ok? && ParsePsbt(SerializePsbt(p).value) == Ok(p)
            case Err(_) => true
  {
    hide ParsePsbt, SerializePsbt, GoodPsbt;
    if ParsePsbt(b).Ok? {
      ParsedIsGood(b);
      ParsePrint(ParsePsbt(b).value);
    }
  }
}
