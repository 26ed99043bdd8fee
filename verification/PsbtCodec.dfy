/**
 * The reader, the parsers and the serializers as the wallet runs them: an
 * offset that advances, buffers that fill up, loops that push to lists. Each is
 * proved against the format.
 */
module PsbtCodec {
  import opened Results
  import opened Arithmetic
  import opened Digits
  import opened PsbtFormat

  /** A reading step does what the format says: the value and the advance, or the error. */
  ghost predicate Did<T(!new)>(spec: Read<T>, r: Result<T, PsbtError>, before: nat, after: nat)
  {
    match spec
    case Ok(v) => r == Ok(v.0) && after == before + v.1
    case Err(e) => r == Err(e)
  }

  /** What has been read so far, followed by what is still to be read. */
  ghost function Continue<T>(done: seq<T>, used: nat, rest: Read<seq<T>>): Read<seq<T>>
  {
    match rest
    case Ok(v) => Ok((done + v.0, used + v.1))
    case Err(e) => Err(e)
  }

  lemma ContinueNothing<T>(rest: Read<seq<T>>)
    ensures Continue([], 0, rest) == rest
  {
    if rest.Ok? {
      assert [] + rest.value.0 == rest.value.0;
    }
  }

  lemma ContinueStep<T>(done: seq<T>, used: nat, x: T, u: nat, rest: Read<seq<T>>)
    ensures Continue(done + [x], used + u, rest) == Continue(done, used, Continue([x], u, rest))
  {
    if rest.Ok? {
      assert (done + [x]) + rest.value.0 == done + ([x] + rest.value.0);
    }
  }

  lemma ContinueEnd<T>(done: seq<T>, used: nat)
    ensures Continue(done, used, Ok(([], 0))) == Ok((done, used))
    ensures forall u: nat :: Continue(done, used, Ok(([], u))) == Ok((done, used + u))
  {
    assert done + [] == done;
  }

  /** One more item of a counted list, or the error that ends it. */
  lemma ReadInputsLoop(b: Bytes, count: nat, done: seq<TxIn>, used: nat, c: Bytes, n: nat)
    requires n > 0 && ReadInputs(b, count) == Continue(done, used, ReadInputs(c, n))
    ensures match ReadInput(c)
            case Err(e) => ReadInputs(b, count) == Err(e)
            case Ok(v) => v.1 <= |c| && ReadInputs(b, count) == Continue(done + [v.0], used + v.1, ReadInputs(c[v.1..], n - 1))
  {
    hide ReadInput;
    match ReadInput(c) {
      case Err(e) =>
      case Ok(v) =>
        ContinueStep(done, used, v.0, v.1, ReadInputs(c[v.1..], n - 1));
        match ReadInputs(c[v.1..], n - 1) {
          case Err(e) =>
          case Ok(w) => assert ReadInputs(c, n) == Ok(([v.0] + w.0, v.1 + w.1));
        }
    }
  }

  /** One more item of a counted list, or the error that ends it. */
  lemma ReadOutputsLoop(b: Bytes, count: nat, done: seq<TxOut>, used: nat, c: Bytes, n: nat)
    requires n > 0 && ReadOutputs(b, count) == Continue(done, used, ReadOutputs(c, n))
    ensures match ReadOutput(c)
            case Err(e) => ReadOutputs(b, count) == Err(e)
            case Ok(v) => v.1 <= |c| && ReadOutputs(b, count) == Continue(done + [v.0], used + v.1, ReadOutputs(c[v.1..], n - 1))
  {
    hide ReadOutput;
    match ReadOutput(c) {
      case Err(e) =>
      case Ok(v) =>
        ContinueStep(done, used, v.0, v.1, ReadOutputs(c[v.1..], n - 1));
        match ReadOutputs(c[v.1..], n - 1) {
          case Err(e) =>
          case Ok(w) => assert ReadOutputs(c, n) == Ok(([v.0] + w.0, v.1 + w.1));
        }
    }
  }

  /** One more item of a counted list, or the error that ends it. */
  lemma ReadRawMapsLoop(b: Bytes, count: nat, done: seq<Bytes>, used: nat, c: Bytes, n: nat)
    requires n > 0 && ReadRawMaps(b, count) == Continue(done, used, ReadRawMaps(c, n))
    ensures match ReadRawMap(c)
            case Err(e) => ReadRawMaps(b, count) == Err(e)
            case Ok(v) => v.1 <= |c| && ReadRawMaps(b, count) == Continue(done + [v.0], used + v.1, ReadRawMaps(c[v.1..], n - 1))
  {
    hide ReadRawMap;
    match ReadRawMap(c) {
      case Err(e) =>
      case Ok(v) =>
        ContinueStep(done, used, v.0, v.1, ReadRawMaps(c[v.1..], n - 1));
        match ReadRawMaps(c[v.1..], n - 1) {
          case Err(e) =>
          case Ok(w) => assert ReadRawMaps(c, n) == Ok(([v.0] + w.0, v.1 + w.1));
        }
    }
  }

  lemma NoneLeft(b: Bytes)
    ensures ReadInputs(b, 0) == Ok(([], 0)) && ReadOutputs(b, 0) == Ok(([], 0)) && ReadRawMaps(b, 0) == Ok(([], 0))
  {
  }

  class ByteReader {
    const bytes: Bytes
    var offset: nat

    ghost predicate Valid()
      reads this
    {
      offset <= |bytes|
    }

    ghost function Rest(): Bytes
      requires Valid()
      reads this
    {
      bytes[offset..]
    }

    constructor (bytes: Bytes)
      ensures this.bytes == bytes && offset == 0 && Valid()
    {
      this.bytes := bytes;
      offset := 0;
    }

    method ReadBytes(n: nat) returns (r: Result<Bytes, PsbtError>)
      requires Valid()
      modifies `offset
      ensures Valid() && Did(Take(old(Rest()), n), r, old(offset), offset)
      ensures r.Err? ==> offset == old(offset)
    {
      if |bytes| - offset < n {
        return Err(UnexpectedEnd);
      }
      var slice := bytes[offset..offset + n];
      assert bytes[offset..][..n] == slice;
      offset := offset + n;
      return Ok(slice);
    }

    method NextU32() returns (r: Result<nat, PsbtError>)
      requires Valid()
      modifies `offset
      ensures Valid() && Did(ReadU32(old(Rest())), r, old(offset), offset)
      ensures r.Err? ==> offset == old(offset)
    {
      if |bytes| - offset < 4 {
        return Err(UnexpectedEnd);
      }
      assert bytes[offset..][..4] == bytes[offset..offset + 4];
      var value := FromLittle(bytes[offset..offset + 4]);
      offset := offset + 4;
      return Ok(value);
    }

    method NextU64() returns (r: Result<nat, PsbtError>)
      requires Valid()
      modifies `offset
      ensures Valid() && Did(ReadU64(old(Rest())), r, old(offset), offset)
      ensures r.Err? ==> offset == old(offset)
    {
      if |bytes| - offset < 8 {
        return Err(UnexpectedEnd);
      }
      assert bytes[offset..][..8] == bytes[offset..offset + 8];
      var value := FromLittle(bytes[offset..offset + 8]);
      offset := offset + 8;
      return Ok(value);
    }

    method NextVarint() returns (r: Result<nat, PsbtError>)
      requires Valid()
      modifies `offset
      ensures Valid() && Did(ReadVarint(old(Rest())), r, old(offset), offset)
    {
      hide FromLittle;
      ghost var b := Rest();
      var head :- ReadBytes(1);
      var first := head[0];
      assert first == b[0] && Rest() == b[1..];
      if first < 0xfd {
        return Ok(first);
      }
      if first == 0xfd {
        if |bytes| - offset < 2 {
          return Err(TruncatedVarint);
        }
        assert bytes[offset..offset + 2] == b[1..3];
        var value := FromLittle(bytes[offset..offset + 2]);
        offset := offset + 2;
        return Ok(value);
      }
      if first == 0xfe {
        assert |b| >= 5 ==> b[1..][..4] == b[1..5];
        r := NextU32();
        return;
      }
      assert |b| >= 9 ==> b[1..][..8] == b[1..9];
      r := NextU64();
    }

    method NextSize() returns (r: Result<nat, PsbtError>)
      requires Valid()
      modifies `offset
      ensures Valid() && Did(ReadSize(old(Rest())), r, old(offset), offset)
    {
      hide ReadVarint;
      var value :- NextVarint();
      if value > MAX_SAFE {
        return Err(VarintTooLarge);
      }
      return Ok(value);
    }

    method NextInput() returns (r: Result<TxIn, PsbtError>)
      requires Valid()
      modifies `offset
      ensures Valid() && Did(ReadInput(old(Rest())), r, old(offset), offset)
    {
      hide ReadSize, FromLittle;
      ghost var b := Rest();
      var prevTxid :- ReadBytes(32);
      assert Rest() == b[32..];
      var vout :- NextU32();
      assert Rest() == b[36..];
      var scriptSigLen :- NextSize();
      if scriptSigLen != 0 {
        return Err(NonEmptyScriptSig);
      }
      assert Rest() == b[36 + ReadSize(b[36..]).value.1..];
      var sequence :- NextU32();
      return Ok(TxIn(prevTxid, vout, sequence));
    }

    method NextOutput() returns (r: Result<TxOut, PsbtError>)
      requires Valid()
      modifies `offset
      ensures Valid() && Did(ReadOutput(old(Rest())), r, old(offset), offset)
    {
      hide ReadSize;
      ghost var b := Rest();
      var valueSats :- NextU64();
      assert Rest() == b[8..];
      var scriptLen :- NextSize();
      assert Rest() == b[8 + ReadSize(b[8..]).value.1..];
      var script :- ReadBytes(scriptLen);
      return Ok(TxOut(valueSats, script));
    }

    /** One key-value pair, or nothing at the terminator. */
    method NextKv() returns (r: Result<Option<Kv>, PsbtError>)
      requires Valid()
      modifies `offset
      ensures Valid() && Did(ReadKv(old(Rest())), r, old(offset), offset)
    {
      hide ReadSize;
      ghost var b := Rest();
      var keyLen :- NextSize();
      if keyLen == 0 {
        return Ok(None);
      }
      ghost var u1 := ReadSize(b).value.1;
      assert Rest() == b[u1..];
      var key :- ReadBytes(keyLen);
      assert Rest() == b[u1 + keyLen..];
      var valueLen :- NextSize();
      assert Rest() == b[u1 + keyLen + ReadSize(b[u1 + keyLen..]).value.1..];
      var value :- ReadBytes(valueLen);
      return Ok(Some(Kv(key, value)));
    }

    method NextInputs(count: nat) returns (r: Result<seq<TxIn>, PsbtError>)
      requires Valid()
      modifies `offset
      ensures Valid() && Did(ReadInputs(old(Rest()), count), r, old(offset), offset)
    {
      hide ReadInput, ReadInputs, Continue;
      ghost var start, b := offset, Rest();
      var inputs: seq<TxIn> := [];
      ContinueNothing(ReadInputs(b, count));
      for i := 0 to count
        invariant Valid() && start <= offset
        invariant ReadInputs(b, count) == Continue(inputs, offset - start, ReadInputs(Rest(), count - i))
      {
        ghost var at, c := offset, Rest();
        ReadInputsLoop(b, count, inputs, at - start, c, count - i);
        var input :- NextInput();
        assert Rest() == c[offset - at..];
        inputs := inputs + [input];
      }
      ContinueEnd(inputs, offset - start);
      assert ReadInputs(Rest(), 0) == Ok(([], 0)) by { NoneLeft(Rest()); }
      return Ok(inputs);
    }

    method NextOutputs(count: nat) returns (r: Result<seq<TxOut>, PsbtError>)
      requires Valid()
      modifies `offset
      ensures Valid() && Did(ReadOutputs(old(Rest()), count), r, old(offset), offset)
    {
      hide ReadOutput, ReadOutputs, Continue;
      ghost var start, b := offset, Rest();
      var outputs: seq<TxOut> := [];
      ContinueNothing(ReadOutputs(b, count));
      for i := 0 to count
        invariant Valid() && start <= offset
        invariant ReadOutputs(b, count) == Continue(outputs, offset - start, ReadOutputs(Rest(), count - i))
      {
        ghost var at, c := offset, Rest();
        ReadOutputsLoop(b, count, outputs, at - start, c, count - i);
        var output :- NextOutput();
        assert Rest() == c[offset - at..];
        outputs := outputs + [output];
      }
      ContinueEnd(outputs, offset - start);
      assert ReadOutputs(Rest(), 0) == Ok(([], 0)) by { NoneLeft(Rest()); }
      return Ok(outputs);
    }

    /** All pairs up to the terminator. */
    method NextKvs() returns (r: Result<seq<Kv>, PsbtError>)
      requires Valid()
      modifies `offset
      ensures Valid() && Did(ReadKvs(old(Rest())), r, old(offset), offset)
    {
      hide ReadKv;
      ghost var start, b := offset, Rest();
      var kvs: seq<Kv> := [];
      ContinueNothing(ReadKvs(b));
      while true
        invariant Valid() && start <= offset
        invariant ReadKvs(b) == Continue(kvs, offset - start, ReadKvs(Rest()))
        decreases |bytes| - offset
      {
        ghost var at, c := offset, Rest();
        var kv :- NextKv();
        if kv.None? {
          ContinueEnd(kvs, at - start);
          return Ok(kvs);
        }
        assert Rest() == c[offset - at..];
        ContinueStep(kvs, at - start, kv.value, offset - at, ReadKvs(Rest()));
        kvs := kvs + [kv.value];
      }
    }

    /** A map as raw bytes, terminator included. */
    method NextRawMap() returns (r: Result<Bytes, PsbtError>)
      requires Valid()
      modifies `offset
      ensures Valid() && Did(ReadRawMap(old(Rest())), r, old(offset), offset)
    {
      hide ReadKvs;
      var start := offset;
      var _ :- NextKvs();
      assert bytes[start..][..offset - start] == bytes[start..offset];
      return Ok(bytes[start..offset]);
    }

    method NextRawMaps(count: nat) returns (r: Result<seq<Bytes>, PsbtError>)
      requires Valid()
      modifies `offset
      ensures Valid() && Did(ReadRawMaps(old(Rest()), count), r, old(offset), offset)
    {
      hide ReadRawMap, ReadRawMaps, Continue;
      ghost var start, b := offset, Rest();
      var maps: seq<Bytes> := [];
      ContinueNothing(ReadRawMaps(b, count));
      for i := 0 to count
        invariant Valid() && start <= offset
        invariant ReadRawMaps(b, count) == Continue(maps, offset - start, ReadRawMaps(Rest(), count - i))
      {
        ghost var at, c := offset, Rest();
        ReadRawMapsLoop(b, count, maps, at - start, c, count - i);
        var rawMap :- NextRawMap();
        assert Rest() == c[offset - at..];
        maps := maps + [rawMap];
      }
      ContinueEnd(maps, offset - start);
      assert ReadRawMaps(Rest(), 0) == Ok(([], 0)) by { NoneLeft(Rest()); }
      return Ok(maps);
    }

    /** The global map: the unsigned transaction is kept apart, a second one is refused. */
    method NextGlobal() returns (r: Result<Global, PsbtError>)
      requires Valid()
      modifies `offset
      ensures Valid() && Did(ReadGlobal(old(Rest()), None), r, old(offset), offset)
    {
      hide ReadKv, ReadGlobal, ContinueGlobal;
      ghost var start, b := offset, Rest();
      var txBytes: Option<Bytes> := None;
      var others: seq<Kv> := [];
      ContinueGlobalNothing(ReadGlobal(b, None));
      while true
        invariant Valid() && start <= offset
        invariant ReadGlobal(b, None) == ContinueGlobal(others, offset - start, ReadGlobal(Rest(), txBytes))
        decreases |bytes| - offset
      {
        ghost var at, c := offset, Rest();
        GlobalLoop(b, others, at - start, c, txBytes);
        var kv :- NextKv();
        if kv.None? {
          return Ok(Global(txBytes, others));
        }
        assert Rest() == c[offset - at..];
        if kv.value.key == UNSIGNED_TX_KEY {
          if txBytes.Some? {
            return Err(DuplicateUnsignedTx);
          }
          txBytes := Some(kv.value.value);
          assert others + [] == others;
        } else {
          others := others + [kv.value];
        }
      }
    }
  }

  ghost function ContinueGlobal(done: seq<Kv>, used: nat, rest: Read<Global>): Read<Global>
  {
    match rest
    case Ok(v) => Ok((Global(v.0.tx, done + v.0.others), used + v.1))
    case Err(e) => Err(e)
  }

  lemma ContinueGlobalNothing(rest: Read<Global>)
    ensures ContinueGlobal([], 0, rest) == rest
  {
    if rest.Ok? {
      assert [] + rest.value.0.others == rest.value.0.others;
    }
  }

  lemma ContinueGlobalStep(done: seq<Kv>, used: nat, more: seq<Kv>, u: nat, rest: Read<Global>)
    ensures ContinueGlobal(done + more, used + u, rest) == ContinueGlobal(done, used, ContinueGlobal(more, u, rest))
  {
    if rest.Ok? {
      assert (done + more) + rest.value.0.others == done + (more + rest.value.0.others);
    }
  }

  /** One more pair of the global map, or what ends it. */
  lemma GlobalLoop(b: Bytes, done: seq<Kv>, used: nat, c: Bytes, tx: Option<Bytes>)
    requires ReadGlobal(b, None) == ContinueGlobal(done, used, ReadGlobal(c, tx))
    ensures match ReadKv(c)
            case Err(e) => ReadGlobal(b, None) == Err(e)
            case Ok(v) =>
              v.1 <= |c| &&
              if v.0.None? then ReadGlobal(b, None) == Ok((Global(tx, done), used + v.1))
              else
                var isTx := v.0.value.key == UNSIGNED_TX_KEY;
                if isTx && tx.Some? then ReadGlobal(b, None) == Err(DuplicateUnsignedTx)
                else ReadGlobal(b, None) == ContinueGlobal(done + (if isTx then [] else [v.0.value]), used + v.1,
                       ReadGlobal(c[v.1..], if isTx then Some(v.0.value.value) else tx))
  {
    hide ReadKv;
    match ReadKv(c) {
      case Err(e) =>
      case Ok(v) =>
        if v.0.None? {
          assert done + [] == done;
        } else {
          var isTx := v.0.value.key == UNSIGNED_TX_KEY;
          ContinueGlobalStep(done, used, if isTx then [] else [v.0.value], v.1,
                             ReadGlobal(c[v.1..], if isTx then Some(v.0.value.value) else tx));
        }
    }
  }

  lemma U32TakesFour(b: Bytes)
    ensures ReadU32(b).Ok? ==> ReadU32(b).value.1 == 4
  {
  }

  /** A counted list of inputs or of outputs, as the transaction holds them. */
  function CountedInputs(b: Bytes): (r: Read<seq<TxIn>>)
    ensures r.Ok? ==> r.value.1 <= |b|
  {
    var (count, u) :- ReadSize(b);
    var (inputs, us) :- ReadInputs(b[u..], count);
    Ok((inputs, u + us))
  }

  function CountedOutputs(b: Bytes): (r: Read<seq<TxOut>>)
    ensures r.Ok? ==> r.value.1 <= |b|
  {
    var (count, u) :- ReadSize(b);
    var (outputs, us) :- ReadOutputs(b[u..], count);
    Ok((outputs, u + us))
  }

  function ParseByLists(b: Bytes): Result<UnsignedTx, PsbtError>
  {
    var (version, u0) :- ReadU32(b);
    var (inputs, u1) :- CountedInputs(b[4..]);
    var (outputs, u2) :- CountedOutputs(b[4 + u1..]);
    var (locktime, u3) :- ReadU32(b[4 + u1 + u2..]);
    if |b| != 4 + u1 + u2 + 4 then Err(TrailingAfterTx)
    else Ok(UnsignedTx(SignOf(version), inputs, outputs, locktime))
  }

  lemma ListsAreTheParse(b: Bytes)
    ensures ParseByLists(b) == ParseTx(b)
  {
    hide ReadInputs, ReadOutputs, SignOf, FromLittle, ReadVarint;
    if ReadU32(b).Ok? && ReadSize(b[4..]).Ok? {
      var u1 := ReadSize(b[4..]).value.1;
      assert b[4..][u1..] == b[4 + u1..];
      if CountedInputs(b[4..]).Ok? {
        var p := 4 + CountedInputs(b[4..]).value.1;
        if ReadSize(b[p..]).Ok? {
          var u3 := ReadSize(b[p..]).value.1;
          assert b[p..][u3..] == b[p + u3..];
        }
      }
    }
  }

  method NextCountedInputs(reader: ByteReader) returns (r: Result<seq<TxIn>, PsbtError>)
    requires reader.Valid()
    modifies reader`offset
    ensures reader.Valid() && Did(CountedInputs(old(reader.Rest())), r, old(reader.offset), reader.offset)
  {
    hide ReadSize, ReadInputs;
    var count :- reader.NextSize();
    r := reader.NextInputs(count);
  }

  method NextCountedOutputs(reader: ByteReader) returns (r: Result<seq<TxOut>, PsbtError>)
    requires reader.Valid()
    modifies reader`offset
    ensures reader.Valid() && Did(CountedOutputs(old(reader.Rest())), r, old(reader.offset), reader.offset)
  {
    hide ReadSize, ReadOutputs;
    var count :- reader.NextSize();
    r := reader.NextOutputs(count);
  }

  method ParseUnsignedTx(bytes: Bytes) returns (r: Result<UnsignedTx, PsbtError>)
    ensures r == ParseTx(bytes)
  {
    hide ReadU32, CountedInputs, CountedOutputs, SignOf, ParseTx;
    ListsAreTheParse(bytes);
    var reader := new ByteReader(bytes);
    assert bytes[0..] == bytes;
    U32TakesFour(bytes);
    var version :- reader.NextU32();
    var inputs :- NextCountedInputs(reader);
    var outputs :- NextCountedOutputs(reader);
    U32TakesFour(reader.Rest());
    var locktime :- reader.NextU32();
    if |bytes| - reader.offset != 0 {
      return Err(TrailingAfterTx);
    }
    return Ok(UnsignedTx(SignOf(version), inputs, outputs, locktime));
  }

  /** The maps of all inputs, then those of all outputs. */
  datatype MapLists = MapLists(inputs: seq<Bytes>, outputs: seq<Bytes>)

  function ReadMapLists(b: Bytes, inputs: nat, outputs: nat): (r: Read<MapLists>)
    ensures r.Ok? ==> r.value.1 <= |b|
  {
    var (inputMaps, u1) :- ReadRawMaps(b, inputs);
    var (outputMaps, u2) :- ReadRawMaps(b[u1..], outputs);
    Ok((MapLists(inputMaps, outputMaps), u1 + u2))
  }

  function ParseByMapLists(b: Bytes): Result<Psbt, PsbtError>
  {
    if |b| < 5 then Err(UnexpectedEnd)
    else if b[..5] != MAGIC then Err(BadMagic)
    else
      var (global, u1) :- ReadGlobal(b[5..], None);
      if global.tx.None? then Err(MissingUnsignedTx)
      else
        var tx :- ParseTx(global.tx.value);
        var (maps, u2) :- ReadMapLists(b[5 + u1..], |tx.inputs|, |tx.outputs|);
        if |b| != 5 + u1 + u2 then Err(TrailingAfterMaps)
        else Ok(Psbt(global.others, tx, maps.inputs, maps.outputs))
  }

  lemma MapListsAreTheParse(b: Bytes)
    ensures ParseByMapLists(b) == ParsePsbt(b)
  {
    hide ReadGlobal, ReadRawMaps, ParseTx;
    if |b| >= 5 && ReadGlobal(b[5..], None).Ok? {
      var (global, u1) := ReadGlobal(b[5..], None).value;
      if global.tx.Some? && ParseTx(global.tx.value).Ok? {
        var n, rest := |ParseTx(global.tx.value).value.inputs|, b[5 + u1..];
        if ReadRawMaps(rest, n).Ok? {
          var u2 := ReadRawMaps(rest, n).value.1;
          assert rest[u2..] == b[5 + u1 + u2..];
        }
      }
    }
  }

  method IsMagic(magic: Bytes) returns (same: bool)
    requires |magic| == 5
    ensures same <==> magic == MAGIC
  {
    var i := 0;
    while i < 5
      invariant 0 <= i <= 5 && forall k | 0 <= k < i :: magic[k] == MAGIC[k]
    {
      if magic[i] != MAGIC[i] {
        return false;
      }
      i := i + 1;
    }
    same := true;
  }

  method NextMapLists(reader: ByteReader, inputs: nat, outputs: nat) returns (r: Result<MapLists, PsbtError>)
    requires reader.Valid()
    modifies reader`offset
    ensures reader.Valid()
    ensures Did(ReadMapLists(old(reader.Rest()), inputs, outputs), r, old(reader.offset), reader.offset)
  {
    hide ReadRawMaps;
    var inputMaps :- reader.NextRawMaps(inputs);
    var outputMaps :- reader.NextRawMaps(outputs);
    r := Ok(MapLists(inputMaps, outputMaps));
  }

  method ParsePsbtBytes(bytes: Bytes) returns (r: Result<Psbt, PsbtError>)
    ensures r == ParsePsbt(bytes)
  {
    hide ReadGlobal, ReadMapLists, ParseTx, ParsePsbt;
    MapListsAreTheParse(bytes);
    var reader := new ByteReader(bytes);
    assert bytes[0..] == bytes;
    var magic :- reader.ReadBytes(5);
    assert magic == bytes[..5];
    var same := IsMagic(magic);
    if !same {
      return Err(BadMagic);
    }
    var global :- reader.NextGlobal();
    if global.tx.None? {
      return Err(MissingUnsignedTx);
    }
    var tx :- ParseUnsignedTx(global.tx.value);
    var maps :- NextMapLists(reader, |tx.inputs|, |tx.outputs|);
    if |bytes| - reader.offset != 0 {
      return Err(TrailingAfterMaps);
    }
    return Ok(Psbt(global.others, tx, maps.inputs, maps.outputs));
  }

  /** Every pair of one map; bytes after its terminator are an error. */
  method IterateMapKvs(bytes: Bytes) returns (r: Result<seq<Kv>, PsbtError>)
    ensures r == MapKvs(bytes)
  {
    hide ReadKvs;
    var reader := new ByteReader(bytes);
    assert bytes[0..] == bytes;
    var kvs :- reader.NextKvs();
    if |bytes| - reader.offset != 0 {
      return Err(TrailingInMap);
    }
    return Ok(kvs);
  }

  // ----- writing -----

  /** DataView's little-endian store of an n-byte integer. */
  method SetLittleEndian(buf: array<byte>, at: nat, v: nat, n: nat)
    requires at + n <= buf.Length
    modifies buf
    ensures buf[at..at + n] == LittleEndian(v, n)
    ensures buf[..at] == old(buf[..at]) && buf[at + n..] == old(buf[at + n..])
  {
    var i, left := 0, v;
    while i < n
      invariant 0 <= i <= n
      invariant buf[..at] == old(buf[..at]) && buf[at + n..] == old(buf[at + n..])
      invariant buf[at..at + i] + LittleEndian(left, n - i) == LittleEndian(v, n)
    {
      buf[at + i] := left % 256;
      assert buf[at..at + i + 1] == buf[at..at + i] + [left % 256];
      left := left / 256;
      i := i + 1;
    }
  }

  method WriteVarintBytes(n: int) returns (r: Result<Bytes, PsbtError>)
    ensures n < 0 ==> r == Err(NegativeVarint)
    ensures n >= 0 ==> r == Ok(WriteVarint(n))
  {
    hide LittleEndian;
    if n < 0 {
      return Err(NegativeVarint);
    }
    if n < 0xfd {
      return Ok([n]);
    }
    var buf := new byte[9](_ => 0);
    if n <= 0xffff {
      buf[0] := 0xfd;
      assert buf[..1] == [0xfd];
      SetLittleEndian(buf, 1, n, 2);
      assert buf[..3] == buf[..1] + buf[1..3];
      return Ok(buf[..3]);
    }
    if n <= 0xffff_ffff {
      buf[0] := 0xfe;
      assert buf[..1] == [0xfe];
      SetLittleEndian(buf, 1, n, 4);
      assert buf[..5] == buf[..1] + buf[1..5];
      return Ok(buf[..5]);
    }
    buf[0] := 0xff;
    assert buf[..1] == [0xff];
    SetLittleEndian(buf, 1, n % TWO64, 8);
    assert buf[..] == buf[..1] + buf[1..9];
    return Ok(buf[..]);
  }

  lemma {:induction false} FlattenSnoc(parts: seq<Bytes>, last: Bytes)
    ensures Flatten(parts + [last]) == Flatten(parts) + last
  {
    if parts == [] {
      assert [last][1..] == [];
    } else {
      FlattenSnoc(parts[1..], last);
      assert (parts + [last])[1..] == parts[1..] + [last];
    }
  }

  method ConcatBytes(parts: seq<Bytes>) returns (bytes: Bytes)
    ensures bytes == Flatten(parts)
  {
    hide Flatten;
    assert Flatten(parts[..0]) == [] by { NothingWritten(); }
    var total := 0;
    for i := 0 to |parts|
      invariant total == |Flatten(parts[..i])|
    {
      assert parts[..i + 1] == parts[..i] + [parts[i]];
      FlattenSnoc(parts[..i], parts[i]);
      total := total + |parts[i]|;
    }
    assert parts[..|parts|] == parts;
    var out := new byte[total](_ => 0);
    var offset := 0;
    for i := 0 to |parts|
      invariant offset == |Flatten(parts[..i])| <= total
      invariant out[..offset] == Flatten(parts[..i])
    {
      assert parts[..i + 1] == parts[..i] + [parts[i]];
      FlattenSnoc(parts[..i], parts[i]);
      FlattenPrefix(parts, i + 1);
      var part := parts[i];
      ghost var before := out[..offset];
      forall k | 0 <= k < |part| {
        out[offset + k] := part[k];
      }
      assert out[..offset] == before;
      assert out[offset..offset + |part|] == part;
      assert out[..offset + |part|] == out[..offset] + out[offset..offset + |part|];
      offset := offset + |part|;
    }
    return out[..];
  }

  lemma {:induction false} FlattenPrefix(parts: seq<Bytes>, i: nat)
    requires i <= |parts|
    ensures |Flatten(parts[..i])| <= |Flatten(parts)|
  {
    if i > 0 {
      FlattenPrefix(parts[1..], i - 1);
      assert parts[..i][1..] == parts[1..][..i - 1];
    }
  }

  lemma {:induction false} FlattenAppend(a: seq<Bytes>, b: seq<Bytes>)
    ensures Flatten(a + b) == Flatten(a) + Flatten(b)
  {
    if a == [] {
      assert a + b == b;
    } else {
      FlattenAppend(a[1..], b);
      assert (a + b)[0] == a[0] && (a + b)[1..] == a[1..] + b;
      Regroup(a[0], Flatten(a[1..]), Flatten(b));
    }
  }

  lemma {:induction false} WriteInputsSnoc(inputs: seq<TxIn>, i: TxIn)
    ensures WriteInputs(inputs + [i]) == WriteInputs(inputs) + WriteInput(i)
  {
    hide WriteInput;
    if inputs == [] {
      assert [i][1..] == [];
    } else {
      WriteInputsSnoc(inputs[1..], i);
      assert (inputs + [i])[1..] == inputs[1..] + [i];
      assert WriteInput(inputs[0]) + (WriteInputs(inputs[1..]) + WriteInput(i))
          == (WriteInput(inputs[0]) + WriteInputs(inputs[1..])) + WriteInput(i);
    }
  }

  lemma {:induction false} WriteOutputsSnoc(outputs: seq<TxOut>, o: TxOut)
    ensures WriteOutputs(outputs + [o]) == WriteOutputs(outputs) + WriteOutput(o)
  {
    hide WriteOutput;
    if outputs == [] {
      assert [o][1..] == [];
    } else {
      WriteOutputsSnoc(outputs[1..], o);
      assert (outputs + [o])[1..] == outputs[1..] + [o];
      assert WriteOutput(outputs[0]) + (WriteOutputs(outputs[1..]) + WriteOutput(o))
          == (WriteOutput(outputs[0]) + WriteOutputs(outputs[1..])) + WriteOutput(o);
    }
  }

  lemma {:induction false} WriteKvsSnoc(kvs: seq<Kv>, kv: Kv)
    ensures WriteKvs(kvs + [kv]) == WriteKvs(kvs) + WriteKv(kv)
  {
    hide WriteKv;
    if kvs == [] {
      assert [kv][1..] == [];
    } else {
      WriteKvsSnoc(kvs[1..], kv);
      assert (kvs + [kv])[1..] == kvs[1..] + [kv];
      assert WriteKv(kvs[0]) + (WriteKvs(kvs[1..]) + WriteKv(kv)) == (WriteKv(kvs[0]) + WriteKvs(kvs[1..])) + WriteKv(kv);
    }
  }

  lemma FlattenFour(parts: seq<Bytes>, a: Bytes, b: Bytes, c: Bytes, d: Bytes)
    ensures Flatten(parts + [a, b, c, d]) == Flatten(parts) + (a + b + c + d)
  {
    FlattenSnoc(parts, a);
    FlattenSnoc(parts + [a], b);
    FlattenSnoc(parts + [a] + [b], c);
    FlattenSnoc(parts + [a] + [b] + [c], d);
    assert parts + [a, b, c, d] == parts + [a] + [b] + [c] + [d];
  }

  method SerializeUnsignedTx(tx: UnsignedTx) returns (r: Result<Bytes, PsbtError>)
    ensures r == SerializeTx(tx)
  {
    hide WriteVarint, WriteU32, WriteOutput, Flatten, WriteInput, WriteInputs, WriteOutputs;
    var inputCount :- assert WriteVarintBytes(|tx.inputs|);
    var zero :- assert WriteVarintBytes(0);
    var outputCount :- assert WriteVarintBytes(|tx.outputs|);
    var head := WriteU32(tx.version) + inputCount;
    var parts := [WriteU32(tx.version), inputCount];
    FlattenTwo(parts[0], parts[1]);
    NothingWritten();
    for i := 0 to |tx.inputs|
      invariant Flatten(parts) == head + WriteInputs(tx.inputs[..i])
      invariant TxidsAre32(tx.inputs[..i])
    {
      var input := tx.inputs[i];
      if |input.prevTxid| != 32 {
        return Err(BadTxidLength);
      }
      FlattenFour(parts, input.prevTxid, WriteU32(input.vout), zero, WriteU32(input.sequence));
      InputIs(input);
      assert tx.inputs[..i + 1] == tx.inputs[..i] + [input];
      WriteInputsSnoc(tx.inputs[..i], input);
      parts := parts + [input.prevTxid, WriteU32(input.vout), zero, WriteU32(input.sequence)];
    }
    assert tx.inputs[..|tx.inputs|] == tx.inputs;
    FlattenSnoc(parts, outputCount);
    parts := parts + [outputCount];
    head := head + WriteInputs(tx.inputs) + outputCount;
    for i := 0 to |tx.outputs|
      invariant Flatten(parts) == head + WriteOutputs(tx.outputs[..i])
    {
      FlattenSnoc(parts, WriteOutput(tx.outputs[i]));
      assert tx.outputs[..i + 1] == tx.outputs[..i] + [tx.outputs[i]];
      WriteOutputsSnoc(tx.outputs[..i], tx.outputs[i]);
      parts := parts + [WriteOutput(tx.outputs[i])];
    }
    assert tx.outputs[..|tx.outputs|] == tx.outputs;
    FlattenSnoc(parts, WriteU32(tx.locktime));
    parts := parts + [WriteU32(tx.locktime)];
    var bytes := ConcatBytes(parts);
    return Ok(bytes);
  }

  lemma InputIs(i: TxIn)
    ensures WriteInput(i) == i.prevTxid + WriteU32(i.vout) + WriteVarint(0) + WriteU32(i.sequence)
  {
  }

  lemma NothingWritten()
    ensures WriteInputs([]) == [] && WriteOutputs([]) == [] && WriteKvs([]) == [] && Flatten([]) == []
  {
  }

  lemma FlattenTwo(a: Bytes, b: Bytes)
    ensures Flatten([a, b]) == a + b
  {
    FlattenOne(a);
    FlattenSnoc([a], b);
    assert [a] + [b] == [a, b];
  }

  method SerializePsbtBytes(p: Psbt) returns (r: Result<Bytes, PsbtError>)
    ensures r == SerializePsbt(p)
  {
    hide WriteVarint, WriteTx, Flatten, WriteKv, WriteKvs;
    if |p.inputMaps| != |p.tx.inputs| {
      return Err(InputMapMismatch);
    }
    if |p.outputMaps| != |p.tx.outputs| {
      return Err(OutputMapMismatch);
    }
    var txBytes :- SerializeUnsignedTx(p.tx);
    var one :- assert WriteVarintBytes(1);
    var txLen :- assert WriteVarintBytes(|txBytes|);
    var parts := [MAGIC];
    var head := MAGIC + WriteKv(Kv(UNSIGNED_TX_KEY, txBytes));
    NothingWritten();
    FlattenOne(MAGIC);
    FlattenFour(parts, one, UNSIGNED_TX_KEY, txLen, txBytes);
    KvIs(Kv(UNSIGNED_TX_KEY, txBytes));
    parts := parts + [one, UNSIGNED_TX_KEY, txLen, txBytes];
    for i := 0 to |p.others|
      invariant Flatten(parts) == head + WriteKvs(p.others[..i])
    {
      var kv := p.others[i];
      var keyLen :- assert WriteVarintBytes(|kv.key|);
      var valueLen :- assert WriteVarintBytes(|kv.value|);
      FlattenFour(parts, keyLen, kv.key, valueLen, kv.value);
      KvIs(kv);
      assert p.others[..i + 1] == p.others[..i] + [kv];
      WriteKvsSnoc(p.others[..i], kv);
      parts := parts + [keyLen, kv.key, valueLen, kv.value];
    }
    assert p.others[..|p.others|] == p.others;
    FlattenSnoc(parts, [0]);
    parts := parts + [[0]];
    FlattenAppend(parts, p.inputMaps);
    FlattenAppend(parts + p.inputMaps, p.outputMaps);
    var bytes := ConcatBytes(parts + p.inputMaps + p.outputMaps);
    assert bytes == head + WriteKvs(p.others) + [0] + Flatten(p.inputMaps) + Flatten(p.outputMaps);
    assert bytes == WritePsbt(p);
    return Ok(bytes);
  }

  lemma KvIs(kv: Kv)
    ensures WriteKv(kv) == WriteVarint(|kv.key|) + kv.key + WriteVarint(|kv.value|) + kv.value
  {
  }

  lemma FlattenOne(a: Bytes)
    ensures Flatten([a]) == a
  {
    assert [a][1..] == [];
  }
}
