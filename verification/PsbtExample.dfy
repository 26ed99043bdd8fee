/**
 * Fixed bytes of the PSBT format (BIP 174, "Specification"). The round trips would also hold of a reader and a writer that
 * agree on another format; these examples name every field, its place, and its byte order.
 */
module PsbtExample {
  import opened Results
  import opened Arithmetic
  import opened Digits
  import opened PsbtFormat

  /** CompactSize in its four forms. */
  lemma CompactSizes()
    ensures WriteVarint(0xfc) == [0xfc]
    ensures WriteVarint(0x1234) == [0xfd, 0x34, 0x12]
    ensures WriteVarint(0x1234_5678) == [0xfe, 0x78, 0x56, 0x34, 0x12]
    ensures WriteVarint(0x12_3456_789a_bcde) == [0xff, 0xde, 0xbc, 0x9a, 0x78, 0x56, 0x34, 0x12, 0]
  {
    TwoBytes(0x34, 0x12);
    FourBytes(0x78, 0x56, 0x34, 0x12);
    EightBytes(0xde, 0xbc, 0x9a, 0x78, 0x56, 0x34, 0x12, 0);
  }

  lemma OneByte(a: byte, v: nat, n: nat)
    ensures LittleEndian(a + 256 * v, n + 1) == [a] + LittleEndian(v, n)
  {
    DivModUnique(a + 256 * v, 256, v, a);
  }

  lemma TwoBytes(a: byte, b: byte)
    ensures LittleEndian(a + 256 * b, 2) == [a, b]
  {
    OneByte(a, b, 1);
    OneByte(b, 0, 0);
  }

  lemma FourBytes(a: byte, b: byte, c: byte, d: byte)
    ensures LittleEndian(a + 256 * b + 0x1_0000 * c + 0x100_0000 * d, 4) == [a, b, c, d]
  {
    hide LittleEndian;
    OneByte(a, b + 256 * c + 0x1_0000 * d, 3);
    OneByte(b, c + 256 * d, 2);
    TwoBytes(c, d);
  }

  lemma EightBytes(a: byte, b: byte, c: byte, d: byte, e: byte, f: byte, g: byte, h: byte)
    ensures LittleEndian(a + 256 * b + 0x1_0000 * c + 0x100_0000 * d
                         + 0x1_0000_0000 * (e + 256 * f + 0x1_0000 * g + 0x100_0000 * h), 8) == [a, b, c, d, e, f, g, h]
  {
    hide LittleEndian;
    var high := e + 256 * f + 0x1_0000 * g + 0x100_0000 * h;
    OneByte(a, b + 256 * c + 0x1_0000 * d + 0x100_0000 * high, 7);
    OneByte(b, c + 256 * d + 0x1_0000 * high, 6);
    OneByte(c, d + 256 * high, 5);
    OneByte(d, high, 4);
    FourBytes(e, f, g, h);
  }

  const TXID: Bytes := [0x01, 0x02, 0x03, 0x04, 0x05, 0x06, 0x07, 0x08, 0x09, 0x0a, 0x0b, 0x0c, 0x0d, 0x0e, 0x0f, 0x10,
                        0x11, 0x12, 0x13, 0x14, 0x15, 0x16, 0x17, 0x18, 0x19, 0x1a, 0x1b, 0x1c, 0x1d, 0x1e, 0x1f, 0x20]

  function ExampleInput(): TxIn { TxIn(TXID, 3, 0xffff_fffd) }

  function ExampleOutput(): TxOut { TxOut(1_000_000, [0x51]) }

  /** Version 2, one input, one output that pays 1,000,000 sats to a one-byte script, locktime 700,000. */
  function ExampleTx(): UnsignedTx { UnsignedTx(2, [ExampleInput()], [ExampleOutput()], 700_000) }

  /** The outpoint, an empty script, the sequence. */
  lemma InputBytes()
    ensures WriteInput(ExampleInput()) == TXID + [0x03, 0, 0, 0] + [0x00] + [0xfd, 0xff, 0xff, 0xff]
  {
    hide LittleEndian;
    FourBytes(3, 0, 0, 0);
    FourBytes(0xfd, 0xff, 0xff, 0xff);
  }

  /** The value, the length of the script, the script. */
  lemma OutputBytes()
    ensures WriteOutput(ExampleOutput()) == [0x40, 0x42, 0x0f, 0, 0, 0, 0, 0] + [0x01] + [0x51]
  {
    hide LittleEndian;
    EightBytes(0x40, 0x42, 0x0f, 0, 0, 0, 0, 0);
  }

  /** The version, the counted inputs, the counted outputs, the locktime. */
  lemma TxBytes()
    ensures WriteTx(ExampleTx())
         == [0x02, 0, 0, 0] + [0x01] + WriteInput(ExampleInput()) + [0x01] + WriteOutput(ExampleOutput()) + [0x60, 0xae, 0x0a, 0]
    ensures |WriteTx(ExampleTx())| == 61
  {
    hide LittleEndian, WriteInput, WriteOutput;
    FourBytes(2, 0, 0, 0);
    FourBytes(0x60, 0xae, 0x0a, 0);
    var tx := ExampleTx();
    OneOfEach(ExampleInput(), ExampleOutput());
    InputBytes();
    OutputBytes();
  }

  lemma OneOfEach(i: TxIn, o: TxOut)
    ensures WriteInputs([i]) == WriteInput(i) && WriteOutputs([o]) == WriteOutput(o)
  {
    hide WriteInput, WriteOutput;
    assert [i][1..] == [] && [o][1..] == [];
    assert WriteInput(i) + [] == WriteInput(i) && WriteOutput(o) + [] == WriteOutput(o);
  }

  /** A PSBT around it, with one more global pair, a witness UTXO in the input map, and an empty output map. */
  function ExamplePsbt(): Psbt
  {
    Psbt([Kv([0xfb], [0, 0, 0, 0])], ExampleTx(), [[0x01, 0x01, 0x02, 0xaa, 0xbb, 0x00]], [[0x00]])
  }

  /** A pair is its counted key and its counted value. */
  lemma PairBytes(key: byte, value: Bytes)
    requires |value| < 0xfd
    ensures WriteKv(Kv([key], value)) == [0x01] + [key] + [|value|] + value
  {
  }

  /**
   * "psbt" and the separator; key 0 with the transaction, before the other global pairs; the end of the global map; and then the
   * maps of the inputs and of the outputs as they are.
   */
  lemma PsbtBytes()
    ensures var tx := WriteTx(ExampleTx());
            SerializePsbt(ExamplePsbt())
            == Ok([0x70, 0x73, 0x62, 0x74, 0xff] + ([0x01] + [0x00] + [61] + tx) + ([0x01] + [0xfb] + [4] + [0, 0, 0, 0]) + [0x00]
                  + [0x01, 0x01, 0x02, 0xaa, 0xbb, 0x00] + [0x00])
  {
    hide WriteTx, WriteKv;
    TxBytes();
    PairBytes(0, WriteTx(ExampleTx()));
    PairBytes(0xfb, [0, 0, 0, 0]);
    OneKv(Kv([0xfb], [0, 0, 0, 0]));
    OneMap([0x01, 0x01, 0x02, 0xaa, 0xbb, 0x00]);
    OneMap([0x00]);
  }

  lemma OneKv(kv: Kv)
    ensures WriteKvs([kv]) == WriteKv(kv)
  {
    hide WriteKv;
    assert [kv][1..] == [] && WriteKv(kv) + [] == WriteKv(kv);
  }

  lemma OneMap(m: Bytes)
    ensures Flatten([m]) == m
  {
    assert [m][1..] == [] && m + [] == m;
  }
}
