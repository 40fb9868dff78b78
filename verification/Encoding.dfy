/**
 The two byte encodings of wallet-core/src/transfer.rs that bind a package to
 its request: the fixed-width associated data and the length-prefixed
 fingerprint preimage. Module Transfer keeps requests and envelopes as values;
 here is why nothing is lost by that.
 */
module Encoding {
  import opened Wrappers
  import opened Bitcoin
  import opened Client
  import opened Transfer

  type Bytes = seq<byte>

  // ---------------------------------------------------------------------------
  // Fixed-width integers and hex.

  /** `to_be_bytes`, in `width` bytes. */
  function BigEndian(n: nat, width: nat): (r: Bytes)
    ensures |r| == width
  {
    if width == 0 then [] else BigEndian(n / 256, width - 1) + [n % 256]
  }

  function Power256(width: nat): nat {
    if width == 0 then 1 else 256 * Power256(width - 1)
  }

  lemma {:induction false} BigEndianIsInjective(a: nat, b: nat, width: nat)
    requires a < Power256(width) && b < Power256(width)
    requires BigEndian(a, width) == BigEndian(b, width)
    ensures a == b
  {
    if width == 0 {
    } else {
      var x, y := BigEndian(a, width), BigEndian(b, width);
      assert x[..width - 1] == BigEndian(a / 256, width - 1) && y[..width - 1] == BigEndian(b / 256, width - 1);
      assert x[width - 1] == a % 256 && y[width - 1] == b % 256;
      BigEndianIsInjective(a / 256, b / 256, width - 1);
    }
  }

  lemma Widths()
    ensures Power256(4) == U32_MAX + 1 && Power256(8) == U64_MAX + 1
  {
    assert Power256(4) == 256 * (256 * (256 * (256 * Power256(0))));
    assert Power256(8) == 256 * (256 * (256 * (256 * Power256(4))));
  }

  function HexDigit(n: nat): char
    requires n < 16
  {
    if n < 10 then '0' + n as char else 'a' + (n - 10) as char
  }

  function DigitValue(c: char): Option<nat> {
    if '0' <= c <= '9' then Some((c - '0') as nat)
    else if 'a' <= c <= 'f' then Some((c - 'a') as nat + 10)
    else if 'A' <= c <= 'F' then Some((c - 'A') as nat + 10)
    else None
  }

  /** `hex::encode`: lowercase. */
  function HexEncode(bytes: Bytes): string {
    if bytes == [] then [] else [HexDigit(bytes[0] / 16), HexDigit(bytes[0] % 16)] + HexEncode(bytes[1..])
  }

  /** `hex::decode`: either case. */
  function HexDecode(s: string): Option<Bytes> {
    if s == [] then Some([])
    else if |s| < 2 then None
    else
      var high, low, rest := DigitValue(s[0]), DigitValue(s[1]), HexDecode(s[2..]);
      if high.None? || low.None? || rest.None? then None else Some([16 * high.value + low.value] + rest.value)
  }

  lemma DigitRoundTrip(n: nat)
    requires n < 16
    ensures DigitValue(HexDigit(n)) == Some(n)
  {
  }

  lemma {:induction false} HexRoundTrip(bytes: Bytes)
    ensures HexDecode(HexEncode(bytes)) == Some(bytes)
  {
    if bytes == [] {
    } else {
      var s := HexEncode(bytes);
      HexRoundTrip(bytes[1..]);
      DigitRoundTrip(bytes[0] / 16);
      DigitRoundTrip(bytes[0] % 16);
      assert s[0] == HexDigit(bytes[0] / 16) && s[1] == HexDigit(bytes[0] % 16) && s[2..] == HexEncode(bytes[1..]);
      assert [bytes[0]] + bytes[1..] == bytes;
    }
  }

  // ---------------------------------------------------------------------------
  // Requests as they travel.

  datatype RawOutPoint = RawOutPoint(txid: Bytes, vout: u32)

  datatype WireRequest = WireRequest(
    formatVersion: u32, protocolVersion: u32, requestId: string, coinId: string, network: NetworkId, outpoint: string,
    amount: u64, withdrawal: string, nextCapHash: string, transportKey: string, minReaction: u32)

  /** The parsers of the Bitcoin libraries, whatever spellings they accept, and their one printer of outpoints. */
  datatype Library = Library(
    xonly: string -> Option<Bytes>, public: string -> Option<Bytes>,
    outpoint: string -> Option<RawOutPoint>, printOutPoint: RawOutPoint -> string)

  const FILE_FORMAT_VERSION: u32 := 1
  const PROTOCOL_VERSION: u32 := 1

  function ParseHex32(s: string): Option<Bytes> {
    var bytes := HexDecode(s);
    if bytes.Some? && |bytes.value| == 32 then bytes else None
  }

  predicate CanonicalHex(parsed: Option<Bytes>, s: string, width: nat) {
    parsed.Some? && |parsed.value| == width && s == HexEncode(parsed.value)
  }

  predicate IsNullRaw(outpoint: RawOutPoint) {
    outpoint.vout == U32_MAX && forall i :: 0 <= i < |outpoint.txid| ==> outpoint.txid[i] == 0
  }

  /** `TransferRequest::validate`: every string is the canonical spelling of what it parses to. */
  predicate ValidRequest(lib: Library, r: WireRequest) {
    && r.formatVersion == FILE_FORMAT_VERSION && r.protocolVersion == PROTOCOL_VERSION
    && CanonicalHex(ParseHex32(r.requestId), r.requestId, 32)
    && CanonicalHex(ParseHex32(r.coinId), r.coinId, 32)
    && lib.outpoint(r.outpoint).Some? && |lib.outpoint(r.outpoint).value.txid| == 32
    && !IsNullRaw(lib.outpoint(r.outpoint).value)
    && r.outpoint == lib.printOutPoint(lib.outpoint(r.outpoint).value)
    && r.amount <= MAX_MONEY
    && CanonicalHex(lib.xonly(r.withdrawal), r.withdrawal, 32)
    && CanonicalHex(ParseHex32(r.nextCapHash), r.nextCapHash, 32)
    && CanonicalHex(lib.public(r.transportKey), r.transportKey, 33)
  }

  function NetworkByte(network: NetworkId): byte {
    match network
    case Mutinynet => 1
    case Mainnet => 2
    case Regtest => 3
  }

  /**
   The fields of the associated data in order, each with its own width. `tag`
   is the constant "Tinylayer/TransferPackage/v1"; any constant would do.
   */
  function AadFields(tag: Bytes, lib: Library, r: WireRequest): seq<Bytes>
    requires ValidRequest(lib, r)
  {
    var outpoint := lib.outpoint(r.outpoint).value;
    [tag, BigEndian(r.protocolVersion, 4), ParseHex32(r.requestId).value, ParseHex32(r.coinId).value,
     [NetworkByte(r.network)], outpoint.txid, BigEndian(outpoint.vout, 4), BigEndian(r.amount, 8),
     lib.xonly(r.withdrawal).value, ParseHex32(r.nextCapHash).value, lib.public(r.transportKey).value,
     BigEndian(r.minReaction, 4)]
  }

  function Flatten(fields: seq<Bytes>): Bytes {
    if fields == [] then [] else Flatten(fields[..|fields| - 1]) + fields[|fields| - 1]
  }

  /** `aad()`, on a request that validates. */
  function Aad(tag: Bytes, lib: Library, r: WireRequest): Bytes
    requires ValidRequest(lib, r)
  {
    Flatten(AadFields(tag, lib, r))
  }

  /** One buffer, appended to field by field. */
  method AppendFields(fields: seq<Bytes>) returns (buffer: Bytes)
    ensures buffer == Flatten(fields)
  {
    buffer := [];
    for i := 0 to |fields|
      invariant buffer == Flatten(fields[..i])
    {
      assert fields[..i + 1][..i] == fields[..i];
      buffer := buffer + fields[i];
    }
    assert fields[..|fields|] == fields;
  }

  lemma SameHead(a: Bytes, b: Bytes, c: Bytes, d: Bytes)
    requires |a| == |c| && a + b == c + d
    ensures a == c && b == d
  {
    assert a == (a + b)[..|a|] && c == (c + d)[..|c|];
    assert b == (a + b)[|a|..] && d == (c + d)[|c|..];
  }

  /** Fields of the same widths can be told apart. */
  lemma {:induction false} FlattenIsInjective(a: seq<Bytes>, b: seq<Bytes>)
    requires |a| == |b| && forall i :: 0 <= i < |a| ==> |a[i]| == |b[i]|
    requires Flatten(a) == Flatten(b)
    ensures a == b
  {
    if a == [] {
    } else {
      var n := |a| - 1;
      assert |Flatten(a[..n]) + a[n]| == |Flatten(b[..n]) + b[n]|;
      SameHead(Flatten(a[..n]), a[n], Flatten(b[..n]), b[n]);
      FlattenIsInjective(a[..n], b[..n]);
      assert a == a[..n] + [a[n]] && b == b[..n] + [b[n]];
    }
  }

  lemma NumbersAgree(a: WireRequest, b: WireRequest)
    requires BigEndian(a.amount, 8) == BigEndian(b.amount, 8)
             && BigEndian(a.minReaction, 4) == BigEndian(b.minReaction, 4)
    ensures a.amount == b.amount && a.minReaction == b.minReaction
  {
    Widths();
    BigEndianIsInjective(a.amount, b.amount, 8);
    BigEndianIsInjective(a.minReaction, b.minReaction, 4);
  }

  lemma OutPointsAgree(a: RawOutPoint, b: RawOutPoint)
    requires a.txid == b.txid && BigEndian(a.vout, 4) == BigEndian(b.vout, 4)
    ensures a == b
  {
    Widths();
    BigEndianIsInjective(a.vout, b.vout, 4);
  }

  /** Two validated requests with the same associated data are the same request, in every field and every spelling. */
  lemma AadIsInjective(tag: Bytes, lib: Library, a: WireRequest, b: WireRequest)
    requires ValidRequest(lib, a) && ValidRequest(lib, b) && Aad(tag, lib, a) == Aad(tag, lib, b)
    ensures a == b
  {
    hide ParseHex32;
    FlattenIsInjective(AadFields(tag, lib, a), AadFields(tag, lib, b));
    FieldsDecide(tag, lib, a, b);
  }

  lemma FieldsDecide(tag: Bytes, lib: Library, a: WireRequest, b: WireRequest)
    requires ValidRequest(lib, a) && ValidRequest(lib, b) && AadFields(tag, lib, a) == AadFields(tag, lib, b)
    ensures a == b
  {
    var x, y := AadFields(tag, lib, a), AadFields(tag, lib, b);
    assert forall i :: 0 <= i < 12 ==> x[i] == y[i];
    assert x[2] == y[2] && x[3] == y[3] && x[4] == y[4] && x[5] == y[5] && x[6] == y[6] && x[7] == y[7];
    assert x[8] == y[8] && x[9] == y[9] && x[10] == y[10] && x[11] == y[11];
    NumbersAgree(a, b);
    OutPointsAgree(lib.outpoint(a.outpoint).value, lib.outpoint(b.outpoint).value);
  }

  // ---------------------------------------------------------------------------
  // Envelope fingerprints.

  /** The envelope's strings as their UTF-8 bytes. */
  datatype WireEnvelope = WireEnvelope(formatVersion: u32, requestId: Bytes, ephemeral: Bytes, nonce: Bytes,
                                       ciphertext: Bytes)

  /** A string length that fits the 64-bit prefix, as every length in memory does. */
  predicate Addressable(value: Bytes) {
    |value| <= U64_MAX
  }

  function Prefixed(values: seq<Bytes>): Bytes {
    if values == [] then [] else BigEndian(|values[0]|, 8) + (values[0] + Prefixed(values[1..]))
  }

  function Values(e: WireEnvelope): seq<Bytes> {
    [e.requestId, e.ephemeral, e.nonce, e.ciphertext]
  }

  /** Everything the fingerprint hashes; `tag` is the constant "Tinylayer/TransferEnvelopeFingerprint/v1". */
  function Preimage(tag: Bytes, e: WireEnvelope): Bytes {
    (tag + BigEndian(e.formatVersion, 4)) + Prefixed(Values(e))
  }

  lemma {:induction false} PrefixedAppend(values: seq<Bytes>, value: Bytes)
    ensures Prefixed(values + [value]) == Prefixed(values) + (BigEndian(|value|, 8) + value)
  {
    if values == [] {
      assert [value][1..] == [];
      assert value + [] == value;
    } else {
      PrefixedAppend(values[1..], value);
      assert (values + [value])[1..] == values[1..] + [value];
      var head, rest := BigEndian(|values[0]|, 8), Prefixed(values[1..]);
      var tail := BigEndian(|value|, 8) + value;
      assert head + (values[0] + (rest + tail)) == (head + (values[0] + rest)) + tail;
    }
  }

  /** `for value in [..] { hash.update(len); hash.update(bytes) }` */
  method FeedFingerprint(tag: Bytes, e: WireEnvelope) returns (fed: Bytes)
    ensures fed == Preimage(tag, e)
  {
    var head := tag + BigEndian(e.formatVersion, 4);
    fed := FeedValues(head, Values(e));
  }

  method FeedValues(head: Bytes, values: seq<Bytes>) returns (fed: Bytes)
    ensures fed == head + Prefixed(values)
  {
    fed := head;
    for i := 0 to |values|
      invariant fed == head + Prefixed(values[..i])
    {
      PrefixedAppend(values[..i], values[i]);
      assert values[..i + 1] == values[..i] + [values[i]];
      Associates(head, Prefixed(values[..i]), BigEndian(|values[i]|, 8), values[i]);
      fed := fed + BigEndian(|values[i]|, 8);
      fed := fed + values[i];
    }
    assert values[..|values|] == values;
  }

  lemma Associates(a: Bytes, b: Bytes, c: Bytes, d: Bytes)
    ensures ((a + b) + c) + d == a + (b + (c + d))
  {
    assert ((a + b) + c) + d == a + (b + (c + d));
  }

  /** Length prefixes tell any two lists of values apart, whatever their lengths and contents. */
  lemma {:induction false} PrefixedIsInjective(a: seq<Bytes>, b: seq<Bytes>)
    requires |a| == |b| && Prefixed(a) == Prefixed(b)
    requires forall i :: 0 <= i < |a| ==> Addressable(a[i]) && Addressable(b[i])
    ensures a == b
  {
    if a == [] {
    } else {
      SameHead(BigEndian(|a[0]|, 8), a[0] + Prefixed(a[1..]), BigEndian(|b[0]|, 8), b[0] + Prefixed(b[1..]));
      Widths();
      BigEndianIsInjective(|a[0]|, |b[0]|, 8);
      SameHead(a[0], Prefixed(a[1..]), b[0], Prefixed(b[1..]));
      PrefixedIsInjective(a[1..], b[1..]);
      assert a == [a[0]] + a[1..] && b == [b[0]] + b[1..];
    }
  }

  predicate InMemory(e: WireEnvelope) {
    Addressable(e.requestId) && Addressable(e.ephemeral) && Addressable(e.nonce) && Addressable(e.ciphertext)
  }

  /** Two envelopes with the same fingerprint preimage are the same envelope. */
  lemma PreimageIsInjective(tag: Bytes, a: WireEnvelope, b: WireEnvelope)
    requires InMemory(a) && InMemory(b) && Preimage(tag, a) == Preimage(tag, b)
    ensures a == b
  {
    SameHead(tag + BigEndian(a.formatVersion, 4), Prefixed(Values(a)), tag + BigEndian(b.formatVersion, 4),
             Prefixed(Values(b)));
    SameHead(tag, BigEndian(a.formatVersion, 4), tag, BigEndian(b.formatVersion, 4));
    VersionsAgree(a.formatVersion, b.formatVersion);
    ValuesInMemory(a);
    ValuesInMemory(b);
    PrefixedIsInjective(Values(a), Values(b));
    ValuesDecide(a, b);
  }

  lemma {:induction false} VersionsAgree(a: u32, b: u32)
    requires BigEndian(a, 4) == BigEndian(b, 4)
    ensures a == b
  {
    Widths();
    BigEndianIsInjective(a, b, 4);
  }

  lemma ValuesInMemory(e: WireEnvelope)
    requires InMemory(e)
    ensures forall i :: 0 <= i < |Values(e)| ==> Addressable(Values(e)[i])
  {
  }

  lemma ValuesDecide(a: WireEnvelope, b: WireEnvelope)
    requires Values(a) == Values(b) && a.formatVersion == b.formatVersion
    ensures a == b
  {
    assert Values(a)[0] == Values(b)[0] && Values(a)[1] == Values(b)[1];
    assert Values(a)[2] == Values(b)[2] && Values(a)[3] == Values(b)[3];
  }
}
