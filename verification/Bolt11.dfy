/**
 * The data part and the human-readable prefix of the invoices this wallet
 * issues (BOLT 11, "Human-Readable Part", "Data Part" and "Tagged Fields"),
 * with a reader that gets every parameter back.
 */
module Bolt11 {
  import opened Results
  import opened Arithmetic
  import opened Digits

  const TAG_PAYMENT_HASH := 1
  const TAG_ROUTE_HINT := 3
  const TAG_FEATURE_BITS := 5
  const TAG_EXPIRY := 6
  const TAG_DESCRIPTION := 13
  const TAG_PAYMENT_SECRET := 16
  const TAG_PAYEE := 19
  const TAG_MIN_FINAL_CLTV_EXPIRY := 24
  const MAX_FIELD_WORDS := 1023
  const FEATURE_WORDS: seq<int> := [5, 0, 16, 0]
  const TWO32 := 0x1_0000_0000

  datatype Hop = Hop(pubkey: seq<byte>, scid: nat, feeBase: nat, feeProportional: nat, cltvDelta: nat)

  datatype Params = Params(paymentHash: seq<byte>, paymentSecret: seq<byte>, description: seq<byte>,
                           expirySecs: nat, minFinalCltv: nat, payee: seq<byte>, routes: seq<seq<Hop>>)

  datatype Field = Field(tag: int, data: seq<int>)

  datatype EncodeError = FieldTooLong | ScidOutOfRange

  // ----- packing words into bytes -----

  function Masked(words: seq<int>): (r: seq<int>)
    ensures |r| == |words| && InBase(r, 32)
  {
    seq(|words|, i requires 0 <= i < |words| => words[i] % 32)
  }

  /** The bytes are the words' bits in order, followed by fewer than eight zero bits. */
  ghost predicate Packs(words: seq<int>, bytes: seq<byte>)
  {
    var pad := 8 * |bytes| - 5 * |words|;
    0 <= pad < 8 && Value(bytes, 256) == Value(Masked(words), 32) * Pow2(pad)
  }

  /** Whole bytes worth `high`, then the low `bits` bits of the accumulator. */
  ghost function Pending(high: int, value: nat, bits: nat): int { high * Pow2(bits) + value % Pow2(bits) }

  lemma NothingPending(high: int, value: nat)
    ensures Pending(high, value, 0) == high == high * Pow2(0)
  {
    assert Pow2(0) == 1;
  }

  lemma ShiftMod(value: nat, m: nat, c: nat, w: nat)
    requires m > 0 && 32 * m * c == TWO32 && w < 32
    ensures ((value * 32) % TWO32 + w) % (32 * m) == (value % m) * 32 + w
  {
    var q, r, k, mm := value / m, value % m, (value * 32) / TWO32, 32 * m;
    ModBounds(value, m);
    ModBounds(value * 32, TWO32);
    assert mm * c == TWO32;
    assert mm * (c * k) == (mm * c) * k;
    assert mm * q == 32 * (m * q);
    assert mm * (q - c * k) == mm * q - mm * (c * k);
    DivModUnique((value * 32) % TWO32 + w, mm, q - c * k, r * 32 + w);
  }

  /** One word shifted into a 32-bit accumulator whose low `bits` bits are pending. */
  lemma ShiftIn(high: int, value: nat, bits: nat, w: nat)
    requires value < TWO32 && bits < 8 && w < 32
    ensures var shifted := (value * 32) % TWO32 + w;
            && 0 <= shifted < TWO32
            && Pending(high, shifted, bits + 5) == Pending(high, value, bits) * 32 + w
  {
    hide Power, Pow2;
    var m := Pow2(bits);
    PowerFactors(bits);
    ShiftMod(value, m, Pow2(27 - bits), w);
    var shifted := (value * 32) % TWO32 + w;
    ModBounds(value * 32, TWO32);
    WholeWords(value);
    assert high * (32 * m) == (high * m) * 32;
  }

  lemma PowerFactors(bits: nat)
    requires bits < 8
    ensures Pow2(bits + 5) == 32 * Pow2(bits)
    ensures 32 * Pow2(bits) * Pow2(27 - bits) == TWO32
  {
    hide Power;
    Pow2Table();
    PowerAdd(2, bits, 5);
    PowerAdd(2, bits + 5, 27 - bits);
    PowerAdd(2, 16, 16);
    PowerAdd(2, 8, 8);
  }

  lemma WholeWords(value: nat)
    ensures (value * 32) % TWO32 <= TWO32 - 32
  {
  }

  lemma TakeMod(value: nat, p: nat)
    requires p > 0
    ensures p * 256 > 0 && value % (p * 256) == ((value / p) % 256) * p + value % p
  {
    var q, r := value / p, value % p;
    var top, rest := q % 256, q / 256;
    ModBounds(value, p);
    ModBounds(q, 256);
    MulOrder(top + 1, 256, p);
    MulOrder(0, top, p);
    assert p * (top + 1) == top * p + p;
    assert p * q == p * (256 * rest) + p * top;
    assert p * (256 * rest) == (p * 256) * rest;
    DivModUnique(value, p * 256, rest, top * p + r);
  }

  /** Taking the top eight of the pending bits leaves the rest pending. */
  lemma TakeByte(high: int, value: nat, bits: nat)
    requires value < TWO32 && 8 <= bits <= 12
    ensures var top := (value / Pow2(bits - 8)) % 256;
            && 0 <= top < 256
            && Pending(high * 256 + top, value, bits - 8) == Pending(high, value, bits)
  {
    hide Power, Pow2;
    var p := Pow2(bits - 8);
    var top := (value / p) % 256;
    assert Pow2(bits) == p * 256 by {
      DropEight(bits);
    }
    TakeMod(value, p);
    assert (high * 256 + top) * p == high * (p * 256) + top * p;
  }

  lemma DropEight(bits: nat)
    requires bits >= 8
    ensures Pow2(bits) == Pow2(bits - 8) * 256
  {
    PowerAdd(2, bits - 8, 8);
    Pow2Table();
  }

  lemma PadMod(value: nat, m: nat, p: nat)
    requires m > 0 && p > 0 && m * p == 256
    ensures (value * p) % 256 == (value % m) * p
  {
    var q, r := value / m, value % m;
    ModBounds(value, m);
    MulOrder(r + 1, m, p);
    MulOrder(0, r, p);
    assert p * (r + 1) == r * p + p;
    assert (m * q) * p == (m * p) * q;
    assert value * p == (m * q) * p + r * p;
    DivModUnique(value * p, 256, q, r * p);
  }

  lemma PadByte(high: int, value: nat, bits: nat)
    requires value < TWO32 && 0 < bits < 8
    ensures high * 256 + (value * Pow2(8 - bits)) % 256 == Pending(high, value, bits) * Pow2(8 - bits)
  {
    var m, p := Pow2(bits), Pow2(8 - bits);
    assert m * p == 256 by {
      PowerAdd(2, bits, 8 - bits);
      Pow2Table();
    }
    PadMod(value, m, p);
    assert (high * m + value % m) * p == high * (m * p) + (value % m) * p;
  }

  /** The accumulator loop. The accumulator is a 32-bit pattern that drops its oldest bits. */
  method WordsToBuffer(words: seq<int>) returns (bytes: seq<byte>)
    ensures Packs(words, bytes)
  {
    hide Power, Pow2, Pending, Value;
    bytes := [];
    var bits, value := 0, 0;
    NothingPending(0, 0);
    assert Value([], 32) == 0 && Value([], 256) == 0 by { NoDigits(); }
    for i := 0 to |words|
      invariant 0 <= bits < 8 && 0 <= value < TWO32
      invariant 8 * |bytes| + bits == 5 * i
      invariant Pending(Value(bytes, 256), value, bits) == Value(Masked(words[..i]), 32)
    {
      assert Masked(words[..i + 1]) == Masked(words[..i]) + [words[i] % 32];
      ValueSnoc(Masked(words[..i]), words[i] % 32, 32);
      ShiftIn(Value(bytes, 256), value, bits, words[i] % 32);
      value := (value * 32) % TWO32 + words[i] % 32;
      bits := bits + 5;
      while bits >= 8
        invariant 0 <= bits <= 12 && 0 <= value < TWO32
        invariant 8 * |bytes| + bits == 5 * (i + 1)
        invariant Pending(Value(bytes, 256), value, bits) == Value(Masked(words[..i + 1]), 32)
        decreases bits
      {
        TakeByte(Value(bytes, 256), value, bits);
        bits := bits - 8;
        var top := (value / Pow2(bits)) % 256;
        ValueSnoc(bytes, top, 256);
        bytes := bytes + [top];
      }
    }
    assert words[..|words|] == words;
    if bits > 0 {
      PadByte(Value(bytes, 256), value, bits);
      var last := (value * Pow2(8 - bits)) % 256;
      ValueSnoc(bytes, last, 256);
      bytes := bytes + [last];
    } else {
      NothingPending(Value(bytes, 256), value);
    }
  }

  lemma NoDigits()
    ensures Value([], 32) == 0 && Value([], 256) == 0
  {
  }

  /** Only one byte string packs a word list. */
  lemma PacksUnique(words: seq<int>, a: seq<byte>, b: seq<byte>)
    requires Packs(words, a) && Packs(words, b)
    ensures a == b
  {
    DigitsOfValue(a, 256);
    DigitsOfValue(b, 256);
  }

  // ----- bytes as words, and back -----

  function WordCount(bytes: nat): nat { (8 * bytes + 4) / 5 }

  /** Bytes as 5-bit words, the last one padded with zero bits. */
  function BytesToWords(bytes: seq<byte>): seq<int>
  {
    ValueBounds(bytes, 256);
    ToDigits(Value(bytes, 256) * Pow2(5 * WordCount(|bytes|) - 8 * |bytes|), 32, WordCount(|bytes|))
  }

  /** The whole bytes in a list of words; the bits left over are dropped. */
  function WordsToBytes(words: seq<int>): seq<int>
    requires InBase(words, 32)
  {
    ValueBounds(words, 32);
    var count := 5 * |words| / 8;
    DivBounds(Value(words, 32), Pow2(5 * |words| - 8 * count));
    ToDigits(Value(words, 32) / Pow2(5 * |words| - 8 * count), 256, count)
  }

  lemma {:induction false} PowerOfPower(n: nat, k: nat)
    ensures Power(Pow2(k), n) == Pow2(k * n)
  {
    if n > 0 {
      PowerOfPower(n - 1, k);
      PowerAdd(2, k, k * (n - 1));
      assert k + k * (n - 1) == k * n;
    }
  }

  lemma BytesSurviveWords(bytes: seq<byte>)
    ensures InBase(BytesToWords(bytes), 32) && WordsToBytes(BytesToWords(bytes)) == bytes
  {
    hide Power, Pow2;
    var n, m := |bytes|, WordCount(|bytes|);
    var pad := 5 * m - 8 * n;
    assert 0 <= pad < 5 && 5 * m / 8 == n;
    var v, p := Value(bytes, 256), Pow2(pad);
    ValueBounds(bytes, 256);
    PaddedFits(v, n, m);
    ValueOfDigits(v * p, 32, m);
    assert v * p == p * v;
    DivModUnique(v * p, p, v, 0);
    DigitsOfValue(bytes, 256);
  }

  /** Padding to whole words keeps the value within their range. */
  lemma PaddedFits(v: nat, n: nat, m: nat)
    requires v < Power(256, n) && 8 * n <= 5 * m
    ensures v * Pow2(5 * m - 8 * n) < Power(32, m)
  {
    Pow2Table();
    PowerOfPower(n, 8);
    PowerOfPower(m, 5);
    PowerAdd(2, 8 * n, 5 * m - 8 * n);
    var p := Pow2(5 * m - 8 * n);
    MulOrder(v + 1, Pow2(8 * n), p);
    assert (v + 1) * p == v * p + p;
  }

  // ----- integers as words -----

  /** The words that `while (remaining > 0)` puts in front, with 32-bit masking and shifting. */
  function ShiftWords(remaining: int): (words: seq<int>)
    ensures InBase(words, 32)
    decreases if remaining > 0 then remaining else 0
  {
    if remaining <= 0 then [] else ShiftWords(Int32(remaining) / 32) + [remaining % 32]
  }

  function IntWords(n: int): (words: seq<int>)
    ensures InBase(words, 32)
  {
    if n == 0 then [0] else ShiftWords(n)
  }

  method IntToWords(n: nat) returns (words: seq<int>)
    ensures words == IntWords(n)
  {
    if n == 0 {
      return [0];
    }
    words := [];
    var remaining := n;
    while remaining > 0
      invariant ShiftWords(n) == ShiftWords(remaining) + words
      decreases if remaining > 0 then remaining else 0
    {
      words := [remaining % 32] + words;
      remaining := Int32(remaining) / 32;
    }
  }

  lemma {:induction false} ShiftWordsValue(n: int)
    requires 0 <= n < 0x8000_0000
    ensures Value(ShiftWords(n), 32) == n
    ensures n > 0 ==> ShiftWords(n) != [] && ShiftWords(n)[0] > 0
  {
    if n > 0 {
      ShiftWordsValue(n / 32);
      assert ShiftWords(n)[..|ShiftWords(n)| - 1] == ShiftWords(n / 32);
    }
  }

  /** The words stand for the integer exactly when it fits in 31 bits, and then without leading zeros. */
  lemma IntWordsExactIff(n: nat)
    ensures Value(IntWords(n), 32) == n <==> n < 0x8000_0000
    ensures 0 < n < 0x8000_0000 ==> IntWords(n)[0] > 0
  {
    if n == 0 {
      assert [0][..0] == [];
    } else if n < 0x8000_0000 {
      ShiftWordsValue(n);
    } else {
      var rest := Int32(n) / 32;
      assert ShiftWords(n)[..|ShiftWords(n)| - 1] == ShiftWords(rest);
      if rest > 0 {
        ShiftWordsValue(rest);
      }
    }
  }

  // ----- the timestamp -----

  /** Seven words of `(ts >> (5 * i)) & 31` on a signed 32-bit integer. */
  function TimestampWords(timestamp: int): (words: seq<int>)
    ensures |words| == 7 && InBase(words, 32)
  {
    var ts := Int32(timestamp);
    [(ts / 0x4000_0000) % 32, (ts / 0x200_0000) % 32, (ts / 0x10_0000) % 32, (ts / 0x8000) % 32,
     (ts / 0x400) % 32, (ts / 0x20) % 32, ts % 32]
  }

  function ReadTimestamp(words: seq<int>): int { Value(words, 32) }

  lemma SevenWords(w: seq<int>)
    requires |w| == 7
    ensures Value(w, 32) == ((((((w[0] * 32 + w[1]) * 32 + w[2]) * 32 + w[3]) * 32 + w[4]) * 32 + w[5]) * 32) + w[6]
  {
    assert w[..6][..5] == w[..5] && w[..5][..4] == w[..4] && w[..4][..3] == w[..3];
    assert w[..3][..2] == w[..2] && w[..2][..1] == w[..1] && w[..1][..0] == [];
    assert Value(w[..1], 32) == w[0];
    assert Value(w[..2], 32) == w[0] * 32 + w[1];
    assert Value(w[..3], 32) == (w[0] * 32 + w[1]) * 32 + w[2];
    assert Value(w[..4], 32) == ((w[0] * 32 + w[1]) * 32 + w[2]) * 32 + w[3];
    assert Value(w[..5], 32) == (((w[0] * 32 + w[1]) * 32 + w[2]) * 32 + w[3]) * 32 + w[4];
  }

  /**
   * Which 35-bit timestamps survive: those below 2^31, and, through sign extension, those in the
   * last 2^31 before 2^35. Everything between is lost to the 32-bit conversion.
   */
  lemma TimestampExactIff(timestamp: int)
    requires 0 <= timestamp < 0x8_0000_0000
    ensures ReadTimestamp(TimestampWords(timestamp)) == timestamp
            <==> timestamp < 0x8000_0000 || timestamp >= 0x8_0000_0000 - 0x8000_0000
  {
    hide Value, Int32;
    SevenWords(TimestampWords(timestamp));
    ReadsModulo(Int32(timestamp));
    Int32Keeps35(timestamp);
  }

  lemma ReadsModulo(ts: int)
    ensures ((((((((ts / 0x4000_0000) % 32) * 32 + (ts / 0x200_0000) % 32) * 32 + (ts / 0x10_0000) % 32) * 32
            + (ts / 0x8000) % 32) * 32 + (ts / 0x400) % 32) * 32 + (ts / 0x20) % 32) * 32) + ts % 32
            == ts % 0x8_0000_0000
  {
    var q1 := ts / 0x20;
    var q2 := q1 / 32;
    var q3 := q2 / 32;
    var q4 := q3 / 32;
    var q5 := q4 / 32;
    var q6 := q5 / 32;
    Quotients(ts);
    DivModUnique(ts, 0x8_0000_0000, q6 / 32,
      ((((((q6 % 32) * 32 + q5 % 32) * 32 + q4 % 32) * 32 + q3 % 32) * 32 + q2 % 32) * 32 + q1 % 32) * 32 + ts % 32);
  }

  lemma Quotients(ts: int)
    ensures var q1 := ts / 0x20; var q2 := q1 / 32; var q3 := q2 / 32; var q4 := q3 / 32; var q5 := q4 / 32;
            ts / 0x400 == q2 && ts / 0x8000 == q3 && ts / 0x10_0000 == q4 && ts / 0x200_0000 == q5
            && ts / 0x4000_0000 == q5 / 32
  {
  }

  // ----- tagged fields -----

  function FieldWords(f: Field): seq<int>
  {
    [f.tag, (|f.data| / 32) % 32, |f.data| % 32] + f.data
  }

  method AddTaggedField(words: seq<int>, tag: int, data: seq<int>) returns (r: Result<seq<int>, EncodeError>)
    ensures |data| > MAX_FIELD_WORDS ==> r == Err(FieldTooLong)
    ensures |data| <= MAX_FIELD_WORDS ==> r == Ok(words + FieldWords(Field(tag, data)))
  {
    if |data| > MAX_FIELD_WORDS {
      return Err(FieldTooLong);
    }
    var len := |data|;
    var r' := words + [tag];
    r' := r' + [(len / 32) % 32];
    r' := r' + [len % 32];
    r' := r' + data;
    assert r' == words + FieldWords(Field(tag, data));
    return Ok(r');
  }

  function AllFieldWords(fields: seq<Field>): seq<int>
  {
    if fields == [] then [] else AllFieldWords(fields[..|fields| - 1]) + FieldWords(fields[|fields| - 1])
  }

  /** A reader of tag, 10-bit length and data. */
  function ReadFields(words: seq<int>): Option<seq<Field>>
  {
    if words == [] then Some([])
    else if |words| < 3 then None
    else
      var len := words[1] * 32 + words[2];
      if len < 0 || |words| < 3 + len then None
      else match ReadFields(words[3 + len..])
        case None => None
        case Some(rest) => Some([Field(words[0], words[3..3 + len])] + rest)
  }

  lemma {:induction false} AllFieldWordsFirst(fields: seq<Field>)
    requires fields != []
    ensures AllFieldWords(fields) == FieldWords(fields[0]) + AllFieldWords(fields[1..])
  {
    hide FieldWords;
    var n := |fields| - 1;
    if n == 0 {
      assert fields[..0] == [] && fields[1..] == [];
    } else {
      AllFieldWordsFirst(fields[..n]);
      assert fields[..n][1..] == fields[1..][..n - 1] && fields[1..][n - 1] == fields[n];
      var a, b, c := FieldWords(fields[0]), AllFieldWords(fields[1..][..n - 1]), FieldWords(fields[n]);
      assert (a + b) + c == a + (b + c);
    }
  }

  lemma ReadOneField(first: Field, rest: seq<int>, fields: seq<Field>)
    requires |first.data| <= MAX_FIELD_WORDS && ReadFields(rest) == Some(fields)
    ensures ReadFields(FieldWords(first) + rest) == Some([first] + fields)
  {
    var words, len := FieldWords(first) + rest, |first.data|;
    assert words[0] == first.tag && words[1] == len / 32 && words[2] == len % 32;
    assert words[1] * 32 + words[2] == len;
    assert words[3..3 + len] == first.data;
    assert words[3 + len..] == rest;
  }

  lemma {:induction false} FieldsSurvive(fields: seq<Field>)
    requires forall f | f in fields :: |f.data| <= MAX_FIELD_WORDS
    ensures ReadFields(AllFieldWords(fields)) == Some(fields)
  {
    if fields != [] {
      AllFieldWordsFirst(fields);
      FieldsSurvive(fields[1..]);
      ReadOneField(fields[0], AllFieldWords(fields[1..]), fields[1..]);
      assert fields == [fields[0]] + fields[1..];
    }
  }

  // ----- route hints -----

  function BigEndian(v: nat, n: nat): (bytes: seq<byte>)
    ensures |bytes| == n
  {
    ToDigits(v, 256, n)
  }

  /** `(x >> 8k) & 0xff` for the given k, on a signed 32-bit integer. */
  function ShiftedByte(x: nat, divisor: nat): byte
    requires divisor > 0
  {
    (Int32(x) / divisor) % 256
  }

  function U32Bytes(x: nat): (bytes: seq<byte>)
    ensures |bytes| == 4
  {
    [ShiftedByte(x, 0x100_0000), ShiftedByte(x, 0x1_0000), ShiftedByte(x, 0x100), ShiftedByte(x, 1)]
  }

  function U16Bytes(x: nat): (bytes: seq<byte>)
    ensures |bytes| == 2
  {
    [ShiftedByte(x, 0x100), ShiftedByte(x, 1)]
  }

  function HopBytes(h: Hop): (bytes: seq<byte>)
    ensures |bytes| == |h.pubkey| + 18
  {
    h.pubkey + BigEndian(h.scid, 8) + U32Bytes(h.feeBase) + U32Bytes(h.feeProportional) + U16Bytes(h.cltvDelta)
  }

  function RouteBytes(hops: seq<Hop>): seq<byte>
  {
    if hops == [] then [] else RouteBytes(hops[..|hops| - 1]) + HopBytes(hops[|hops| - 1])
  }

  /** `bytes[i] = remaining & 0xff`, from the last index down. */
  method BigintToBytes(value: nat, length: nat) returns (bytes: seq<byte>)
    ensures bytes == BigEndian(value, length)
  {
    bytes := [];
    var remaining := value;
    var i := length;
    while i > 0
      invariant 0 <= i <= length
      invariant BigEndian(value, length) == BigEndian(remaining, i) + bytes
    {
      i := i - 1;
      bytes := [remaining % 256] + bytes;
      remaining := remaining / 256;
    }
  }

  method EncodeRouteHint(hops: seq<Hop>) returns (words: seq<int>)
    ensures words == BytesToWords(RouteBytes(hops))
  {
    var bytes: seq<byte> := [];
    for i := 0 to |hops|
      invariant bytes == RouteBytes(hops[..i])
    {
      var hop := hops[i];
      var scid := BigintToBytes(hop.scid, 8);
      assert hops[..i + 1][..i] == hops[..i];
      bytes := bytes + (hop.pubkey + scid
        + [ShiftedByte(hop.feeBase, 0x100_0000), ShiftedByte(hop.feeBase, 0x1_0000),
           ShiftedByte(hop.feeBase, 0x100), ShiftedByte(hop.feeBase, 1)]
        + [ShiftedByte(hop.feeProportional, 0x100_0000), ShiftedByte(hop.feeProportional, 0x1_0000),
           ShiftedByte(hop.feeProportional, 0x100), ShiftedByte(hop.feeProportional, 1)]
        + [ShiftedByte(hop.cltvDelta, 0x100), ShiftedByte(hop.cltvDelta, 1)]);
      assert bytes == RouteBytes(hops[..i]) + HopBytes(hop);
    }
    assert hops[..|hops|] == hops;
    words := BytesToWords(bytes);
  }

  predicate HopInRange(h: Hop)
  {
    |h.pubkey| == 33 && h.scid < 0x1_0000_0000_0000_0000 && h.feeBase < TWO32 && h.feeProportional < TWO32
    && h.cltvDelta < 0x1_0000
  }

  const HOP_BYTES := 51

  function ReadHop(b: seq<byte>): Hop
    requires |b| == HOP_BYTES
  {
    ValueBounds(b[33..41], 256);
    ValueBounds(b[41..45], 256);
    ValueBounds(b[45..49], 256);
    ValueBounds(b[49..], 256);
    Hop(b[..33], Value(b[33..41], 256), Value(b[41..45], 256), Value(b[45..49], 256), Value(b[49..], 256))
  }

  function ReadRoute(b: seq<byte>): Option<seq<Hop>>
  {
    if b == [] then Some([])
    else if |b| < HOP_BYTES then None
    else match ReadRoute(b[..|b| - HOP_BYTES])
      case None => None
      case Some(hops) => Some(hops + [ReadHop(b[|b| - HOP_BYTES..])])
  }

  lemma FourDigits(b: seq<int>)
    requires |b| == 4
    ensures Value(b, 256) == ((b[0] * 256 + b[1]) * 256 + b[2]) * 256 + b[3]
  {
    assert b[..3][..2] == b[..2] && b[..2][..1] == b[..1] && b[..1][..0] == [];
    assert Value(b[..1], 256) == b[0];
    assert Value(b[..2], 256) == b[0] * 256 + b[1];
    assert Value(b[..3], 256) == Value(b[..2], 256) * 256 + b[2];
  }

  lemma FourBytes(x: nat)
    requires x < TWO32
    ensures ((ShiftedByte(x, 0x100_0000) as int * 256 + ShiftedByte(x, 0x1_0000)) * 256 + ShiftedByte(x, 0x100)) * 256
            + ShiftedByte(x, 1) == x
  {
    var y := Int32(x);
    BytesModulo(y);
    DivModUnique(y, TWO32, (y - x) / TWO32, x);
  }

  lemma BytesModulo(y: int)
    ensures (((y / 0x100_0000) % 256 * 256 + (y / 0x1_0000) % 256) * 256 + (y / 0x100) % 256) * 256 + (y / 1) % 256
            == y % TWO32
  {
    var q1 := y / 256;
    var q2 := q1 / 256;
    var q3 := q2 / 256;
    assert y / 0x1_0000 == q2;
    assert y / 0x100_0000 == q3;
    DivModUnique(y, TWO32, q3 / 256, ((q3 % 256 * 256 + q2 % 256) * 256 + q1 % 256) * 256 + y % 256);
  }

  lemma U32Survives(x: nat)
    requires x < TWO32
    ensures Value(U32Bytes(x), 256) == x
  {
    hide Value, ShiftedByte;
    FourDigits(U32Bytes(x));
    FourBytes(x);
  }

  lemma U16Survives(x: nat)
    requires x < 0x1_0000
    ensures Value(U16Bytes(x), 256) == x
  {
    var b: seq<int> := U16Bytes(x);
    assert b[..1][..0] == [];
    assert Value(b[..1], 256) == b[0];
  }

  lemma EightBytes(x: nat)
    requires x < 0x1_0000_0000_0000_0000
    ensures Value(BigEndian(x, 8), 256) == x
  {
    PowerAdd(256, 4, 4);
    PowerAdd(256, 2, 2);
    assert Power(256, 2) == 0x1_0000;
    ValueOfDigits(x, 256, 8);
  }

  lemma HopSurvives(h: Hop)
    requires HopInRange(h)
    ensures |HopBytes(h)| == HOP_BYTES && ReadHop(HopBytes(h)) == h
  {
    hide U32Bytes, U16Bytes, BigEndian, Value;
    U32Survives(h.feeBase);
    U32Survives(h.feeProportional);
    U16Survives(h.cltvDelta);
    EightBytes(h.scid);
    var b := HopBytes(h);
    assert b[..33] == h.pubkey;
    assert b[33..41] == BigEndian(h.scid, 8);
    assert b[41..45] == U32Bytes(h.feeBase);
    assert b[45..49] == U32Bytes(h.feeProportional);
    assert b[49..] == U16Bytes(h.cltvDelta);
  }

  lemma ReadLastHop(b: seq<byte>, h: Hop, hops: seq<Hop>)
    requires HopInRange(h) && ReadRoute(b) == Some(hops)
    ensures ReadRoute(b + HopBytes(h)) == Some(hops + [h])
  {
    hide HopBytes, ReadHop, HopInRange;
    HopSurvives(h);
    var all := b + HopBytes(h);
    assert all[..|all| - HOP_BYTES] == b;
    assert all[|all| - HOP_BYTES..] == HopBytes(h);
  }

  lemma {:induction false} RouteSurvives(hops: seq<Hop>)
    requires forall h | h in hops :: HopInRange(h)
    ensures ReadRoute(RouteBytes(hops)) == Some(hops)
  {
    hide HopBytes, ReadHop, HopInRange;
    if hops != [] {
      var n := |hops| - 1;
      RouteSurvives(hops[..n]);
      ReadLastHop(RouteBytes(hops[..n]), hops[n], hops[..n]);
      assert hops == hops[..n] + [hops[n]];
    }
  }

  // ----- the data part -----

  function FixedFields(p: Params): seq<Field>
  {
    [Field(TAG_PAYMENT_HASH, BytesToWords(p.paymentHash)),
     Field(TAG_PAYMENT_SECRET, BytesToWords(p.paymentSecret)),
     Field(TAG_DESCRIPTION, BytesToWords(p.description)),
     Field(TAG_EXPIRY, IntWords(p.expirySecs)),
     Field(TAG_MIN_FINAL_CLTV_EXPIRY, IntWords(p.minFinalCltv)),
     Field(TAG_PAYEE, BytesToWords(p.payee)),
     Field(TAG_FEATURE_BITS, FEATURE_WORDS)]
  }

  function RouteFields(routes: seq<seq<Hop>>): (fields: seq<Field>)
    ensures |fields| == |routes|
    ensures forall i | 0 <= i < |routes| :: fields[i] == Field(TAG_ROUTE_HINT, BytesToWords(RouteBytes(routes[i])))
  {
    seq(|routes|, i requires 0 <= i < |routes| => Field(TAG_ROUTE_HINT, BytesToWords(RouteBytes(routes[i]))))
  }

  predicate FieldsFit(fields: seq<Field>) { forall f | f in fields :: |f.data| <= MAX_FIELD_WORDS }

  /** Adding field k to the first k fields. */
  lemma OneMoreField(fields: seq<Field>, k: nat)
    requires k < |fields|
    ensures AllFieldWords(fields[..k + 1]) == AllFieldWords(fields[..k]) + FieldWords(fields[k])
    ensures FieldsFit(fields[..k + 1]) <==> FieldsFit(fields[..k]) && |fields[k].data| <= MAX_FIELD_WORDS
    ensures FieldsFit(fields) ==> |fields[k].data| <= MAX_FIELD_WORDS
  {
    assert fields[..k + 1][..k] == fields[..k];
    assert fields[..k + 1] == fields[..k] + [fields[k]];
  }

  /** 35 bits of timestamp as seven words. */
  method AddTimestamp(timestamp: nat) returns (words: seq<int>)
    ensures words == TimestampWords(timestamp)
  {
    words := [];
    var ts := Int32(timestamp);
    var divisors := [1, 0x20, 0x400, 0x8000, 0x10_0000, 0x200_0000, 0x4000_0000];
    var i := 6;
    while i >= 0
      invariant -1 <= i <= 6
      invariant words == TimestampWords(timestamp)[..6 - i]
    {
      words := words + [(ts / divisors[i]) % 32];
      i := i - 1;
    }
  }

  /** One call of AddTaggedField in its place among all fields of the invoice. */
  method AddInPlace(words: seq<int>, tag: int, data: seq<int>, ghost all: seq<Field>, ghost k: nat, ghost start: seq<int>)
    returns (r: Result<seq<int>, EncodeError>)
    requires k < |all| && all[k] == Field(tag, data)
    requires words == start + AllFieldWords(all[..k]) && FieldsFit(all[..k])
    ensures r.Err? ==> !FieldsFit(all)
    ensures r.Ok? ==> r.value == start + AllFieldWords(all[..k + 1]) && FieldsFit(all[..k + 1])
  {
    hide FieldWords, AllFieldWords, FieldsFit;
    OneMoreField(all, k);
    r := AddTaggedField(words, tag, data);
    assert (start + AllFieldWords(all[..k])) + FieldWords(all[k]) == start + (AllFieldWords(all[..k]) + FieldWords(all[k]));
  }

  /** Timestamp, seven fixed fields and the route hints; it fails exactly when a field is too long. */
  method BuildDataPart(p: Params, timestamp: nat) returns (r: Result<seq<int>, EncodeError>)
    ensures r.Ok? <==> FieldsFit(FixedFields(p) + RouteFields(p.routes))
    ensures r.Ok? ==> r.value == TimestampWords(timestamp) + AllFieldWords(FixedFields(p) + RouteFields(p.routes))
  {
    hide IntWords, BytesToWords, TimestampWords, FieldsFit, RouteBytes, FixedFields, FieldWords, AllFieldWords;
    ghost var all := FixedFields(p) + RouteFields(p.routes);
    FixedFieldsAre(p);
    var words := AddTimestamp(timestamp);
    ghost var start := words;
    words :- AddFixedFields(words, p, all, start);
    for k := 0 to |p.routes|
      invariant words == start + AllFieldWords(all[..7 + k]) && FieldsFit(all[..7 + k])
    {
      var routeWords := EncodeRouteHint(p.routes[k]);
      words :- AddInPlace(words, TAG_ROUTE_HINT, routeWords, all, 7 + k, start);
    }
    assert all[..7 + |p.routes|] == all;
    return Ok(words);
  }

  lemma FixedFieldsAre(p: Params)
    ensures |FixedFields(p)| == 7
  {
  }

  /** The seven calls before the route hints. */
  method AddFixedFields(words0: seq<int>, p: Params, ghost all: seq<Field>, ghost start: seq<int>)
    returns (r: Result<seq<int>, EncodeError>)
    requires words0 == start
    requires |FixedFields(p)| == 7 && FixedFields(p) <= all
    ensures r.Err? ==> !FieldsFit(all)
    ensures r.Ok? ==> r.value == start + AllFieldWords(all[..7]) && FieldsFit(all[..7])
  {
    hide IntWords, BytesToWords, FieldsFit, FieldWords;
    var words := words0;
    assert all[..0] == [] && start + [] == start;
    assert FieldsFit(all[..0]) by { NoFields(); }
    assert forall k | 0 <= k < 7 :: all[k] == FixedFields(p)[k];
    words :- AddInPlace(words, TAG_PAYMENT_HASH, BytesToWords(p.paymentHash), all, 0, start);
    words :- AddInPlace(words, TAG_PAYMENT_SECRET, BytesToWords(p.paymentSecret), all, 1, start);
    words :- AddInPlace(words, TAG_DESCRIPTION, BytesToWords(p.description), all, 2, start);
    var expiry := IntToWords(p.expirySecs);
    words :- AddInPlace(words, TAG_EXPIRY, expiry, all, 3, start);
    var cltv := IntToWords(p.minFinalCltv);
    words :- AddInPlace(words, TAG_MIN_FINAL_CLTV_EXPIRY, cltv, all, 4, start);
    words :- AddInPlace(words, TAG_PAYEE, BytesToWords(p.payee), all, 5, start);
    words :- AddInPlace(words, TAG_FEATURE_BITS, FEATURE_WORDS, all, 6, start);
    return Ok(words);
  }

  lemma NoFields()
    ensures FieldsFit([])
  {
  }

  ghost predicate ReadsBytes(f: Field, tag: int, bytes: seq<byte>)
  {
    f.tag == tag && InBase(f.data, 32) && WordsToBytes(f.data) == bytes
  }

  ghost predicate ReadsInt(f: Field, tag: int, n: nat) { f.tag == tag && Value(f.data, 32) == n }

  ghost predicate ReadsRoute(f: Field, hops: seq<Hop>)
  {
    && f.tag == 3
    && InBase(f.data, 32) && InBase(WordsToBytes(f.data), 256)
    && ReadRoute(WordsToBytes(f.data)) == Some(hops)
  }

  /**
   * The fields, by position, say what the parameters say, under the field types of BOLT 11 ("Tagged Fields"): p, s, d, x, c, n,
   * 9 and then r for each route. The features are bits 9, 15 and 17.
   */
  ghost predicate FieldsRead(fields: seq<Field>, p: Params)
  {
    && |fields| == 7 + |p.routes|
    && ReadsBytes(fields[0], 1, p.paymentHash)
    && ReadsBytes(fields[1], 16, p.paymentSecret)
    && ReadsBytes(fields[2], 13, p.description)
    && ReadsInt(fields[3], 6, p.expirySecs)
    && ReadsInt(fields[4], 24, p.minFinalCltv)
    && ReadsBytes(fields[5], 19, p.payee)
    && ReadsInt(fields[6], 5, 0x200 + 0x8000 + 0x2_0000)
    && forall i | 0 <= i < |p.routes| :: ReadsRoute(fields[7 + i], p.routes[i])
  }

  lemma FeaturesRead()
    ensures ReadsInt(Field(TAG_FEATURE_BITS, FEATURE_WORDS), 5, 0x200 + 0x8000 + 0x2_0000)
  {
    var w := FEATURE_WORDS;
    assert w[..3][..2] == w[..2] && w[..2][..1] == w[..1] && w[..1][..0] == [];
    assert Value(w[..1], 32) == 5;
    assert Value(w[..2], 32) == Value(w[..1], 32) * 32;
    assert Value(w[..3], 32) == Value(w[..2], 32) * 32 + 16;
  }

  lemma BytesFieldReads(tag: int, bytes: seq<byte>)
    ensures ReadsBytes(Field(tag, BytesToWords(bytes)), tag, bytes)
  {
    BytesSurviveWords(bytes);
  }

  lemma IntFieldReads(tag: int, n: nat)
    requires n < 0x8000_0000
    ensures ReadsInt(Field(tag, IntWords(n)), tag, n)
  {
    IntWordsExactIff(n);
  }

  lemma RouteFieldReads(hops: seq<Hop>)
    requires forall h | h in hops :: HopInRange(h)
    ensures ReadsRoute(Field(TAG_ROUTE_HINT, BytesToWords(RouteBytes(hops))), hops)
  {
    BytesSurviveWords(RouteBytes(hops));
    RouteSurvives(hops);
  }

  ghost predicate RoutesInRange(routes: seq<seq<Hop>>)
  {
    forall i | 0 <= i < |routes| :: forall h | h in routes[i] :: HopInRange(h)
  }

  lemma FieldsReadBack(p: Params)
    requires p.expirySecs < 0x8000_0000 && p.minFinalCltv < 0x8000_0000 && RoutesInRange(p.routes)
    ensures FieldsRead(FixedFields(p) + RouteFields(p.routes), p)
  {
    hide ReadsBytes, ReadsInt, ReadsRoute, BytesToWords, IntWords, RouteBytes, HopInRange;
    BytesFieldReads(TAG_PAYMENT_HASH, p.paymentHash);
    BytesFieldReads(TAG_PAYMENT_SECRET, p.paymentSecret);
    BytesFieldReads(TAG_DESCRIPTION, p.description);
    IntFieldReads(TAG_EXPIRY, p.expirySecs);
    IntFieldReads(TAG_MIN_FINAL_CLTV_EXPIRY, p.minFinalCltv);
    BytesFieldReads(TAG_PAYEE, p.payee);
    FeaturesRead();
    forall i | 0 <= i < |p.routes|
      ensures ReadsRoute((FixedFields(p) + RouteFields(p.routes))[7 + i], p.routes[i])
    {
      RouteFieldReads(p.routes[i]);
    }
  }

  /**
   * Every parameter of an encoded invoice comes back, in order, when the numbers fit their 32-bit
   * paths: the timestamp from the first seven words and the rest from the tagged fields.
   */
  lemma DataPartReadsBack(p: Params, timestamp: nat)
    requires FieldsFit(FixedFields(p) + RouteFields(p.routes))
    requires timestamp < 0x8000_0000 && p.expirySecs < 0x8000_0000 && p.minFinalCltv < 0x8000_0000
    requires RoutesInRange(p.routes)
    ensures var words := TimestampWords(timestamp) + AllFieldWords(FixedFields(p) + RouteFields(p.routes));
            && ReadTimestamp(words[..7]) == timestamp
            && ReadFields(words[7..]).Some?
            && FieldsRead(ReadFields(words[7..]).value, p)
  {
    hide FieldsRead, ReadFields, AllFieldWords, FixedFields, RouteFields, TimestampWords;
    var fields := FixedFields(p) + RouteFields(p.routes);
    var words := TimestampWords(timestamp) + AllFieldWords(fields);
    assert words[..7] == TimestampWords(timestamp);
    assert words[7..] == AllFieldWords(fields);
    TimestampExactIff(timestamp);
    FieldsSurvive(fields);
    FieldsReadBack(p);
  }

  // ----- the human-readable part -----

  function Dec(n: nat): (s: string)
    ensures |s| >= 1
    ensures forall i | 0 <= i < |s| :: '0' <= s[i] <= '9'
  {
    if n < 10 then [('0' as int + n) as char] else Dec(n / 10) + [('0' as int + n % 10) as char]
  }

  function ReadDec(s: string): int
  {
    if s == [] then 0 else ReadDec(s[..|s| - 1]) * 10 + (s[|s| - 1] as int - '0' as int)
  }

  lemma {:induction false} DecSurvives(n: nat)
    ensures ReadDec(Dec(n)) == n
  {
    if n >= 10 {
      DecSurvives(n / 10);
      assert Dec(n)[..|Dec(n)| - 1] == Dec(n / 10);
    } else {
      assert Dec(n)[..0] == [];
    }
  }

  const PREFIX := "lnbc"

  function BuildHrp(amountMsat: int): string
  {
    if amountMsat <= 0 then PREFIX
    else
      var pico := amountMsat * 10;
      if pico % 1_000_000_000 == 0 then PREFIX + Dec(pico / 1_000_000_000) + "m"
      else if pico % 1_000_000 == 0 then PREFIX + Dec(pico / 1_000_000) + "u"
      else if pico % 1_000 == 0 then PREFIX + Dec(pico / 1_000) + "n"
      else PREFIX + Dec(pico) + "p"
  }

  /** How many pico-bitcoin one unit of a multiplier is. */
  function Multiplier(c: char): nat
  {
    match c
    case 'm' => 1_000_000_000
    case 'u' => 1_000_000
    case 'n' => 1_000
    case 'p' => 1
    case _ => 0
  }

  /** The amount a reader finds, in pico-bitcoin; zero stands for no amount. */
  function ReadHrp(hrp: string): int
    requires |hrp| >= 4
  {
    if |hrp| == 4 then 0 else ReadDec(hrp[4..|hrp| - 1]) * Multiplier(hrp[|hrp| - 1])
  }

  lemma ReadsBackHrp(n: nat, c: char)
    ensures var hrp := PREFIX + Dec(n) + [c];
            |hrp| > 5 && hrp[..4] == PREFIX && hrp[|hrp| - 1] == c && ReadHrp(hrp) == n * Multiplier(c)
  {
    var hrp := PREFIX + Dec(n) + [c];
    assert hrp[4..|hrp| - 1] == Dec(n);
    DecSurvives(n);
  }

  /** The prefix says exactly the amount, in the largest multiplier that can. */
  lemma HrpSaysAmount(amountMsat: int)
    ensures var hrp := BuildHrp(amountMsat);
            && hrp[..4] == PREFIX
            && ReadHrp(hrp) == (if amountMsat <= 0 then 0 else 10 * amountMsat)
            && (amountMsat > 0 ==>
                  && |hrp| > 5
                  && Multiplier(hrp[|hrp| - 1]) > 0
                  && forall c | Multiplier(c) > Multiplier(hrp[|hrp| - 1]) :: (10 * amountMsat) % Multiplier(c) != 0)
  {
    hide Dec, ReadDec;
    if amountMsat > 0 {
      var pico := amountMsat * 10;
      if pico % 1_000_000_000 == 0 {
        ReadsBackHrp(pico / 1_000_000_000, 'm');
      } else if pico % 1_000_000 == 0 {
        ReadsBackHrp(pico / 1_000_000, 'u');
      } else if pico % 1_000 == 0 {
        ReadsBackHrp(pico / 1_000, 'n');
      } else {
        ReadsBackHrp(pico, 'p');
      }
    }
  }

  // ----- short channel ids -----

  /** A block, transaction index and output packed in 64 bits (BOLT 7). */
  function PackScid(block: int, tx: int, output: int): Result<nat, EncodeError>
  {
    if block < 0 || block >= 0x100_0000 || tx < 0 || tx >= 0x100_0000 || output < 0 || output >= 0x1_0000
    then Err(ScidOutOfRange)
    else Ok(block * 0x100_0000_0000 + tx * 0x1_0000 + output)
  }

  /** Packing is accepted exactly in range, fits 64 bits, and each part can be read off again. */
  lemma ScidUnpacks(block: int, tx: int, output: int)
    ensures var r := PackScid(block, tx, output);
            && (r.Ok? <==> 0 <= block < 0x100_0000 && 0 <= tx < 0x100_0000 && 0 <= output < 0x1_0000)
            && (r.Ok? ==>
                  && r.value < 0x1_0000_0000_0000_0000
                  && r.value / 0x100_0000_0000 == block
                  && (r.value / 0x1_0000) % 0x100_0000 == tx
                  && r.value % 0x1_0000 == output)
  {
  }
}
