/** Whole payloads: an encapsulation header, a value, and padding to a multiple of
    four when asked for (section 7.6.3.1.2 of OMG DDS-XTypes 1.3). */
module CdrMessage {
  import opened Wrappers
  import opened Align
  import opened Cdr
  import opened CdrRoundTrip
  import opened CdrStreams

  datatype Kind = CdrBe | CdrLe | PlCdrBe | PlCdrLe | Cdr2Be | Cdr2Le | DCdr2Be | DCdr2Le | PlCdr2Be | PlCdr2Le

  function Identifier(kind: Kind): nat {
    match kind
    case CdrBe => 0x0000
    case CdrLe => 0x0001
    case PlCdrBe => 0x0002
    case PlCdrLe => 0x0003
    case Cdr2Be => 0x0006
    case Cdr2Le => 0x0007
    case DCdr2Be => 0x0008
    case DCdr2Le => 0x0009
    case PlCdr2Be => 0x000a
    case PlCdr2Le => 0x000b
  }

  function FromIdentifier(id: nat): Option<Kind> {
    match id
    case 0x0000 => Some(CdrBe)
    case 0x0001 => Some(CdrLe)
    case 0x0002 => Some(PlCdrBe)
    case 0x0003 => Some(PlCdrLe)
    case 0x0006 => Some(Cdr2Be)
    case 0x0007 => Some(Cdr2Le)
    case 0x0008 => Some(DCdr2Be)
    case 0x0009 => Some(DCdr2Le)
    case 0x000a => Some(PlCdr2Be)
    case 0x000b => Some(PlCdr2Le)
    case _ => None
  }

  predicate IsV2(kind: Kind) {
    !(kind.CdrBe? || kind.CdrLe? || kind.PlCdrBe? || kind.PlCdrLe?)
  }

  /** The low bit of the identifier is the byte order. */
  function EncodingOf(kind: Kind): Encoding {
    Encoding(IsV2(kind), BitAnd(Identifier(kind), 1) != 0, false)
  }

  const HeaderLength := 4

  /** Identifier and options, both big-endian whatever the body is. */
  function Header(kind: Kind, options: nat): (s: seq<Octet>)
    ensures |s| == HeaderLength
  {
    BigEndian(2, Identifier(kind)) + BigEndian(2, options)
  }

  function Padding(options: nat): nat {
    BitAnd(options, 3)
  }

  function Message(kind: Kind, t: Type, v: Value): Encoded
    requires Typed(t, v)
  {
    var body := Encode(EncodingOf(kind), 0, t, v);
    if body.Err? then body else Ok(Header(kind, 0) + body.value)
  }

  /** Under XCDR2 the header records how much padding follows the body. */
  function PaddedMessage(kind: Kind, t: Type, v: Value): Encoded
    requires Typed(t, v)
  {
    var body := Encode(EncodingOf(kind), 0, t, v);
    if body.Err? then body
    else
      var pad := PaddingTo(|body.value|, 4);
      Ok(Header(kind, if IsV2(kind) then pad else 0) + body.value + Zeros(pad))
  }

  /** The reader a payload opens, with the declared padding left out of its scope. */
  function Open(data: seq<Octet>): (r: Result<Reader, CdrError>)
    ensures r.Ok? ==> ValidReader(r.value)
  {
    if |data| < HeaderLength then Err(Truncated)
    else
      var kind := FromIdentifier(FromBigEndian(data[..2]));
      var padding := Padding(FromBigEndian(data[2..4]));
      if kind.None? then Err(UnknownEncapsulation)
      else if padding > |data| - HeaderLength then Err(PaddingOverrun)
      else Ok(Reader(data, HeaderLength, HeaderLength, |data| - padding, EncodingOf(kind.value)))
  }

  /** Decode a payload, forgiving at most `slack` octets behind the value. */
  function FromBytes(data: seq<Octet>, t: Type, slack: nat): Result<Value, CdrError> {
    var r := Open(data);
    if r.Err? then Err(r.error)
    else
      var d := Decode(r.value, t);
      if d.Err? then Err(d.error)
      else if r.value.end - d.value.1 > slack then Err(TrailingBytes)
      else Ok(d.value.0)
  }

  /** What `from_bytes_tolerant` forgives. */
  const MaxSlack := 3

  // ---------------------------------------------------------------- properties

  lemma KindRoundTrip(kind: Kind)
    ensures FromIdentifier(Identifier(kind)) == Some(kind)
  {}

  lemma OptionsRoundTrip(pad: nat)
    requires pad < 4
    ensures Padding(pad) == pad && Limit(2) == 0x1_0000
  {
    assert Pow2(2) == 4 by { assert Pow2(2) == 2 * Pow2(1) && Pow2(1) == 2 * Pow2(0); }
    MaskIsRemainder(pad, 2);
    assert Limit(2) == 256 * Limit(1) && Limit(1) == 256 * Limit(0);
  }

  /** A payload opens on the body that follows its header. */
  lemma OpenBody(kind: Kind, pad: nat, body: seq<Octet>, rest: seq<Octet>)
    requires pad < 4 && pad <= |body + rest|
    ensures var data := Header(kind, pad) + body + rest;
            && Open(data) == Ok(Reader(data, 4, 4, |data| - pad, EncodingOf(kind)))
            && (|body| <= |data| - pad - 4 ==> At(Reader(data, 4, 4, |data| - pad, EncodingOf(kind)), body))
  {
    hide BigEndian, FromBigEndian, FromIdentifier, Padding, EncodingOf, Identifier;
    var data := Header(kind, pad) + body + rest;
    assert data[..2] == BigEndian(2, Identifier(kind)) && data[2..4] == BigEndian(2, pad);
    KindRoundTrip(kind);
    OptionsRoundTrip(pad);
    IdentifierSmall(kind);
    EndianRoundTrip(2, Identifier(kind));
    EndianRoundTrip(2, pad);
    assert data[4..4 + |body|] == body;
  }

  lemma IdentifierSmall(kind: Kind)
    ensures Identifier(kind) < 0x1_0000
  {}

  /** What follows the body, beyond the padding the header declares, is forgiven up to
      the slack. */
  lemma ReadBack(kind: Kind, t: Type, v: Value, body: seq<Octet>, declared: nat, rest: seq<Octet>, slack: nat)
    requires Typed(t, v) && Grounded(t) && Encode(EncodingOf(kind), 0, t, v) == Ok(body)
    requires declared < 4 && declared <= |rest|
    ensures FromBytes(Header(kind, declared) + body + rest, t, slack)
            == if |rest| - declared <= slack then Ok(v) else Err(TrailingBytes)
  {
    hide Encode, Decode, Typed, Grounded, Header, EncodingOf, Open;
    var data := Header(kind, declared) + body + rest;
    OpenBody(kind, declared, body, rest);
    GroundedRoundTrip(Reader(data, 4, 4, |data| - declared, EncodingOf(kind)), t, v, body);
  }

  /** Every value of a grounded type that can be written is read back. */
  lemma MessageRoundTrip(kind: Kind, t: Type, v: Value, slack: nat)
    requires Typed(t, v) && Grounded(t) && Message(kind, t, v).Ok?
    ensures FromBytes(Message(kind, t, v).value, t, slack) == Ok(v)
  {
    hide Encode, Typed, Grounded, Header, EncodingOf, FromBytes;
    var body := Encode(EncodingOf(kind), 0, t, v).value;
    ReadBack(kind, t, v, body, 0, [], slack);
    assert Header(kind, 0) + body + [] == Header(kind, 0) + body;
  }

  lemma PadSmall(n: nat)
    ensures var pad := PaddingTo(n, 4);
            pad < 4 && (4 + n + pad) % 4 == 0 && (pad == 0 <==> (4 + n) % 4 == 0)
  {
    assert Pow2(2) == 4 by { assert Pow2(2) == 2 * Pow2(1) && Pow2(1) == 2 * Pow2(0); }
    PaddingIsModular(n, 2);
    PaddingIsLeast(n, 2, 0);
  }

  /** A padded payload is a multiple of four octets. Read strictly, it gives the
      value back under XCDR2, and under XCDR1 exactly when no padding was needed;
      read tolerantly, always. */
  lemma PaddedRoundTrip(kind: Kind, t: Type, v: Value)
    requires Typed(t, v) && Grounded(t) && Message(kind, t, v).Ok?
    ensures PaddedMessage(kind, t, v).Ok?
    ensures var data, plain := PaddedMessage(kind, t, v).value, Message(kind, t, v).value;
            && |data| % 4 == 0 && |plain| <= |data| < |plain| + 4
            && FromBytes(data, t, 0) == (if IsV2(kind) || |plain| % 4 == 0 then Ok(v) else Err(TrailingBytes))
            && FromBytes(data, t, MaxSlack) == Ok(v)
  {
    hide Encode, Typed, Grounded, Header, EncodingOf, PaddingTo, FromBytes, IsV2;
    var body := Encode(EncodingOf(kind), 0, t, v).value;
    var pad := PaddingTo(|body|, 4);
    PadSmall(|body|);
    var declared := if IsV2(kind) then pad else 0;
    ReadBack(kind, t, v, body, declared, Zeros(pad), 0);
    ReadBack(kind, t, v, body, declared, Zeros(pad), MaxSlack);
  }

  // ------------------------------------------------------------------ the calls

  /** Write a header that declares no padding, and the value behind it. */
  method WriteMessage(kind: Kind, t: Type, v: Value) returns (writer: CdrWriter, failed: Option<CdrError>)
    requires Typed(t, v)
    ensures fresh(writer) && writer.Valid()
    ensures var body := Encode(EncodingOf(kind), 0, t, v);
            if body.Err? then failed == Some(body.error)
            else
              && failed.None? && writer.sink == Buffer(Header(kind, 0) + body.value)
              && writer.Position() == |body.value|
  {
    hide Encode, Typed, Header, EncodingOf;
    writer := new CdrWriter(EncodingOf(kind), Buffer([]), Header(kind, 0));
    failed := writer.Serialize(t, v);
    assert [] + Header(kind, 0) == Header(kind, 0);
  }

  method ToVec(kind: Kind, t: Type, v: Value) returns (r: Encoded)
    requires Typed(t, v)
    ensures r == Message(kind, t, v)
  {
    hide Encode, Typed, Header, EncodingOf;
    var writer, failed := WriteMessage(kind, t, v);
    if failed.Some? { return Err(failed.value); }
    return Ok(writer.sink.octets);
  }

  lemma PatchOptions(kind: Kind, options: nat, body: seq<Octet>, rest: seq<Octet>)
    ensures Patch(Buffer(Header(kind, 0) + body + rest), 2, BigEndian(2, options))
            == Buffer(Header(kind, options) + body + rest)
  {
    hide BigEndian, Identifier;
    var all := Header(kind, 0) + body + rest;
    assert all[..2] == BigEndian(2, Identifier(kind)) && all[4..] == body + rest;
  }

  /** Pad a finished body to a multiple of four and, under XCDR2, say so in the
      header already written. */
  method PadBody(writer: CdrWriter, kind: Kind, ghost body: seq<Octet>)
    requires writer.Valid() && writer.sink == Buffer(Header(kind, 0) + body) && writer.Position() == |body|
    modifies writer
    ensures var pad := PaddingTo(|body|, 4);
            writer.sink == Buffer(Header(kind, if IsV2(kind) then pad else 0) + body + Zeros(pad))
  {
    hide PaddingTo, Header, BigEndian, Patch;
    var pad := PaddingTo(writer.Position(), 4);
    assert Header(kind, 0) + body + [] == Header(kind, 0) + body;
    if pad > 0 {
      writer.Emit(Zeros(pad));
      if IsV2(kind) {
        PatchOptions(kind, pad, body, Zeros(pad));
        writer.sink := Patch(writer.sink, 2, BigEndian(2, pad));
      }
    } else {
      assert Zeros(pad) == [];
    }
  }

  method ToVecPadded(kind: Kind, t: Type, v: Value) returns (r: Encoded)
    requires Typed(t, v)
    ensures r == PaddedMessage(kind, t, v)
  {
    hide Encode, Typed, PaddingTo, Header, EncodingOf, Zeros, IsV2;
    var writer, failed := WriteMessage(kind, t, v);
    if failed.Some? { return Err(failed.value); }
    PadBody(writer, kind, Encode(EncodingOf(kind), 0, t, v).value);
    return Ok(writer.sink.octets);
  }

  /** The size is counted by the writer itself, so it is the length it would
      have written, and fails when writing would. */
  method SerializedSize(kind: Kind, t: Type, v: Value) returns (r: Result<nat, CdrError>)
    requires Typed(t, v)
    ensures var m := Message(kind, t, v);
            r == if m.Ok? then Ok(|m.value|) else Err(m.error)
  {
    hide Encode, Typed, Header, EncodingOf;
    var writer := new CdrWriter(EncodingOf(kind), Counter(0), Header(kind, 0));
    var failed := writer.Serialize(t, v);
    if failed.Some? { return Err(failed.value); }
    return Ok(Length(writer.sink));
  }

  method SerializedSizePadded(kind: Kind, t: Type, v: Value) returns (r: Result<nat, CdrError>)
    requires Typed(t, v)
    ensures var m := PaddedMessage(kind, t, v);
            r == if m.Ok? then Ok(|m.value|) else Err(m.error)
  {
    hide Encode, Typed, Header, PaddingTo, EncodingOf;
    var writer := new CdrWriter(EncodingOf(kind), Counter(0), Header(kind, 0));
    var failed := writer.Serialize(t, v);
    if failed.Some? { return Err(failed.value); }
    return Ok(Length(writer.sink) + PaddingTo(writer.Position(), 4));
  }

  method ReadBytes(data: seq<Octet>, t: Type, slack: nat) returns (r: Result<Value, CdrError>)
    ensures r == FromBytes(data, t, slack)
  {
    hide Decode, FromBigEndian, Padding, FromIdentifier;
    if |data| < HeaderLength { return Err(Truncated); }
    var kind := FromIdentifier(FromBigEndian(data[..2]));
    if kind.None? { return Err(UnknownEncapsulation); }
    var padding := Padding(FromBigEndian(data[2..4]));
    if padding > |data| - HeaderLength { return Err(PaddingOverrun); }
    var reader := new CdrReader(data, HeaderLength, |data| - padding, EncodingOf(kind.value));
    r := reader.Deserialize(t);
    if r.Ok? && reader.end - reader.pos > slack { return Err(TrailingBytes); }
  }
}
