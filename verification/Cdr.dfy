/** The CDR wire format (section 15.3 of CORBA 3.0) and its second version
    (section 7.4.3 of OMG DDS-XTypes 1.3), as functions from typed values to
    octets and back. */
module Cdr {
  import opened Wrappers
  import opened Align

  const U32Max: nat := 0xffff_ffff

  /** What a stream is written with: XCDR1 or XCDR2, which byte order, and
      whether a `wchar` takes two octets or four. */
  datatype Encoding = Encoding(v2: bool, little: bool, wide: bool)

  type Width = w: nat | w == 1 || w == 2 || w == 4 || w == 8 witness 1

  /** The types a message is built of. Integers and floats are carried as the bit
      pattern of a `Number`. */
  datatype Type =
    | Boolean
    | Number(width: Width)
    | WChar
    | Text(bound: Option<nat>)
    | WText(bound: Option<nat>)
    | Sequence(element: Type, bound: Option<nat>)
    | Array(element: Type, count: nat)
    | Struct(appendable: bool, members: seq<Type>)

  datatype Value = Num(n: nat) | Str(octets: seq<Octet>) | Items(items: seq<Value>)

  datatype CdrError =
    | Truncated
    | BoundExceeded
    | InteriorNul
    | MissingNulTerminator
    | InvalidBoolean
    | InvalidUtf8
    | InvalidUtf16
    | LengthOverflow
    | SequenceTooLong
    | SizeOverflow
    | DelimiterOverrun
    | UnknownEncapsulation
    | PaddingOverrun
    | TrailingBytes

  // --------------------------------------------------------------------- types

  predicate IsPrimitive(t: Type) {
    t.Boolean? || t.Number? || t.WChar?
  }

  predicate IsComposite(t: Type) {
    t.WText? || t.Sequence? || t.Array? || t.Struct?
  }

  function Repeat(t: Type, n: nat): seq<Type> {
    seq(n, _ => t)
  }

  /** The types of the parts of a composite, which for a sequence of `n` are `n`
      times its element. */
  function PartTypes(t: Type, n: nat): seq<Type>
    requires IsComposite(t)
  {
    match t
    case WText(_) => Repeat(WChar, n)
    case Sequence(e, _) => Repeat(e, n)
    case Array(e, c) => Repeat(e, c)
    case Struct(_, members) => members
  }

  /** A composite whose wire form starts with a count of its parts. */
  predicate IsCounted(t: Type) {
    t.WText? || t.Sequence?
  }

  /** A composite whose wire form is preceded by its length in octets. */
  predicate IsFramed(enc: Encoding, t: Type) {
    enc.v2 && match t
              case Sequence(e, _) => !IsPrimitive(e)
              case Array(e, _) => !IsPrimitive(e)
              case Struct(appendable, _) => appendable
              case _ => false
  }

  predicate Exceeds(n: nat, bound: Option<nat>) {
    bound.Some? && n > bound.value
  }

  function BoundOf(t: Type): Option<nat> {
    match t
    case Text(b) => b
    case WText(b) => b
    case Sequence(_, b) => b
    case _ => None
  }

  function Saturate(n: nat): nat {
    if n <= UsizeMax then n else UsizeMax
  }

  function WCharWidth(enc: Encoding): Width {
    if enc.wide then 4 else 2
  }

  /** Nesting depth, by which decoding recurses. */
  function Depth(t: Type): nat {
    match t
    case Sequence(e, _) => Depth(e) + 1
    case Array(e, _) => Depth(e) + 1
    case Struct(_, members) => DepthAll(members) + 1
    case WText(_) => 1
    case _ => 0
  }

  function DepthAll(types: seq<Type>): (d: nat)
    ensures forall i | 0 <= i < |types| :: Depth(types[i]) <= d
  {
    if types == [] then 0
    else
      var n := |types| - 1;
      var init, last := DepthAll(types[..n]), Depth(types[n]);
      assert types == types[..n] + [types[n]];
      if init >= last then init else last
  }

  lemma {:induction false} DepthRepeat(t: Type, n: nat)
    ensures DepthAll(Repeat(t, n)) <= Depth(t)
  {
    if n > 0 {
      assert Repeat(t, n)[..n - 1] == Repeat(t, n - 1);
      DepthRepeat(t, n - 1);
    }
  }

  lemma PartDepth(t: Type, n: nat)
    requires IsComposite(t)
    ensures DepthAll(PartTypes(t, n)) < Depth(t)
  {
    match t
    case WText(_) => DepthRepeat(WChar, n);
    case Sequence(e, _) => DepthRepeat(e, n);
    case Array(e, c) => DepthRepeat(e, c);
    case Struct(_, _) =>
  }

  /** The least octets a value of this type takes, which a reader multiplies by
      a declared count before it believes it. */
  function MinSize(t: Type): nat {
    match t
    case Boolean => 1
    case Number(w) => w
    case WChar => 2
    case Text(_) => 5
    case WText(_) => 4
    case Sequence(_, _) => 4
    case Array(e, c) => Saturate(c * MinSize(e))
    case Struct(_, members) => MinSizeAll(members)
  }

  function MinSizeAll(types: seq<Type>): nat {
    if types == [] then 0 else Saturate(MinSizeAll(types[..|types| - 1]) + MinSize(types[|types| - 1]))
  }

  /** The least octets of one counted part. */
  function PartMin(enc: Encoding, t: Type): nat {
    match t
    case WText(_) => WCharWidth(enc)
    case Sequence(e, _) => MinSize(e)
    case _ => 0
  }

  // -------------------------------------------------------------------- values

  /** Well-formed UTF-8, as table 3-7 of the Unicode Standard has it. */
  predicate IsUtf8(s: seq<Octet>) {
    if s == [] then true
    else if s[0] < 0x80 then IsUtf8(s[1..])
    else if |s| >= 2 && 0xc2 <= s[0] <= 0xdf && Trails(s[1]) then IsUtf8(s[2..])
    else if |s| >= 3 && 0xe0 <= s[0] <= 0xef && Trails(s[1]) && Trails(s[2])
            && (s[0] == 0xe0 ==> s[1] >= 0xa0) && (s[0] == 0xed ==> s[1] <= 0x9f) then IsUtf8(s[3..])
    else if |s| >= 4 && 0xf0 <= s[0] <= 0xf4 && Trails(s[1]) && Trails(s[2]) && Trails(s[3])
            && (s[0] == 0xf0 ==> s[1] >= 0x90) && (s[0] == 0xf4 ==> s[1] <= 0x8f) then IsUtf8(s[4..])
    else false
  }

  predicate Trails(x: Octet) {
    0x80 <= x <= 0xbf
  }

  function Limit(width: nat): nat {
    if width == 0 then 1 else 256 * Limit(width - 1)
  }

  lemma LimitFour()
    ensures Limit(4) == U32Max + 1
  {
    assert Limit(1) == 256 && Limit(2) == 256 * Limit(1) && Limit(3) == 256 * Limit(2);
  }

  /** The values of a type. Its bounds are not part of this: they are checked. */
  predicate Typed(t: Type, v: Value)
    decreases v
  {
    match t
    case Boolean => v.Num? && v.n <= 1
    case Number(w) => v.Num? && v.n < Limit(w)
    case WChar => v.Num? && v.n < 0x1_0000
    case Text(_) => v.Str? && IsUtf8(v.octets)
    case _ =>
      && v.Items?
      && |PartTypes(t, |v.items|)| == |v.items|
      && forall i | 0 <= i < |v.items| :: Typed(PartTypes(t, |v.items|)[i], v.items[i])
  }

  ghost predicate TypedAll(types: seq<Type>, items: seq<Value>) {
    |types| == |items| && forall i | 0 <= i < |items| :: Typed(types[i], items[i])
  }

  /** A value that keeps to the bounds of its type, holds no NUL inside text, and
      whose counts fit the four octets they are written in. */
  predicate Acceptable(t: Type, v: Value)
    requires Typed(t, v)
    decreases v
  {
    match v
    case Num(_) => true
    case Str(octets) => !Exceeds(|octets|, BoundOf(t)) && 0 !in octets && |octets| + 1 <= U32Max
    case Items(items) =>
      && !Exceeds(|items|, BoundOf(t))
      && (IsCounted(t) ==> |items| <= U32Max)
      && forall i | 0 <= i < |items| :: Acceptable(PartTypes(t, |items|)[i], items[i])
  }

  // ------------------------------------------------------------------- numbers

  function BigEndian(width: nat, n: nat): (s: seq<Octet>)
    ensures |s| == width
  {
    if width == 0 then [] else BigEndian(width - 1, n / 256) + [n % 256]
  }

  function LittleEndian(width: nat, n: nat): (s: seq<Octet>)
    ensures |s| == width
  {
    if width == 0 then [] else [n % 256] + LittleEndian(width - 1, n / 256)
  }

  function FromBigEndian(s: seq<Octet>): nat {
    if s == [] then 0 else FromBigEndian(s[..|s| - 1]) * 256 + s[|s| - 1]
  }

  function FromLittleEndian(s: seq<Octet>): nat {
    if s == [] then 0 else s[0] + 256 * FromLittleEndian(s[1..])
  }

  function NumberOctets(enc: Encoding, width: nat, n: nat): (s: seq<Octet>)
    ensures |s| == width
  {
    if enc.little then LittleEndian(width, n) else BigEndian(width, n)
  }

  function FromOctets(enc: Encoding, s: seq<Octet>): nat {
    if enc.little then FromLittleEndian(s) else FromBigEndian(s)
  }

  lemma {:induction false} EndianRoundTrip(width: nat, n: nat)
    requires n < Limit(width)
    ensures FromBigEndian(BigEndian(width, n)) == n && FromLittleEndian(LittleEndian(width, n)) == n
  {
    if width > 0 {
      var high := n / 256;
      EndianRoundTrip(width - 1, high);
      assert n == high * 256 + n % 256;
      BigEndianNext(BigEndian(width - 1, high), n % 256);
      assert LittleEndian(width, n)[1..] == LittleEndian(width - 1, high);
    }
  }

  lemma BigEndianNext(s: seq<Octet>, x: Octet)
    ensures FromBigEndian(s + [x]) == FromBigEndian(s) * 256 + x
  {
    assert (s + [x])[..|s|] == s;
  }

  lemma {:induction false} OctetsFit(enc: Encoding, s: seq<Octet>)
    ensures FromOctets(enc, s) < Limit(|s|)
  {
    if s != [] {
      OctetsFit(enc, if enc.little then s[1..] else s[..|s| - 1]);
    }
  }

  /** Alignment is capped at 8 octets, and at 4 under XCDR2. */
  function AlignFor(enc: Encoding, natural: nat): nat {
    var cap := if enc.v2 then 4 else 8;
    if natural > cap then cap else natural
  }

  function Pad(enc: Encoding, pos: nat, natural: nat): nat {
    PaddingTo(pos, AlignFor(enc, natural))
  }

  function Zeros(n: nat): seq<Octet> {
    seq(n, _ => 0)
  }

  /** A number at its own alignment. */
  function PutNumber(enc: Encoding, pos: nat, width: nat, n: nat): seq<Octet> {
    Zeros(Pad(enc, pos, width)) + NumberOctets(enc, width, n)
  }

  // ------------------------------------------------------------------ encoding

  type Encoded = Result<seq<Octet>, CdrError>

  /** The octets of `v` at stream position `pos`. */
  function Encode(enc: Encoding, pos: nat, t: Type, v: Value): Encoded
    requires Typed(t, v)
    decreases v
  {
    match t
    case Boolean => Ok(PutNumber(enc, pos, 1, v.n))
    case Number(w) => Ok(PutNumber(enc, pos, w, v.n))
    case WChar => Ok(PutNumber(enc, pos, WCharWidth(enc), v.n))
    case Text(bound) =>
      if Exceeds(|v.octets|, bound) then Err(BoundExceeded)
      else if 0 in v.octets then Err(InteriorNul)
      else if |v.octets| + 1 > U32Max then Err(SequenceTooLong)
      else Ok(PutNumber(enc, pos, 4, |v.octets| + 1) + v.octets + [0])
    case _ => EncodeParts(enc, pos, t, v.items)
  }

  function EncodeParts(enc: Encoding, pos: nat, t: Type, items: seq<Value>): Encoded
    requires IsComposite(t) && TypedAll(PartTypes(t, |items|), items)
    decreases items, 2
  {
    if Exceeds(|items|, BoundOf(t)) then Err(BoundExceeded)
    else if IsFramed(enc, t) then Framed(enc, pos, EncodeBody(enc, pos + Pad(enc, pos, 4) + 4, t, items))
    else EncodeBody(enc, pos, t, items)
  }

  function Framed(enc: Encoding, pos: nat, body: Encoded): Encoded {
    if body.Err? then body
    else if |body.value| > U32Max then Err(SizeOverflow)
    else Ok(PutNumber(enc, pos, 4, |body.value|) + body.value)
  }

  function CountOctets(enc: Encoding, pos: nat, t: Type, n: nat): seq<Octet> {
    if IsCounted(t) then PutNumber(enc, pos, 4, n) else []
  }

  function EncodeBody(enc: Encoding, pos: nat, t: Type, items: seq<Value>): Encoded
    requires IsComposite(t) && TypedAll(PartTypes(t, |items|), items)
    decreases items, 1
  {
    if IsCounted(t) && |items| > U32Max then Err(SequenceTooLong)
    else
      var count := CountOctets(enc, pos, t, |items|);
      var all := EncodeAll(enc, pos + |count|, PartTypes(t, |items|), items);
      if all.Err? then all else Ok(count + all.value)
  }

  function EncodeAll(enc: Encoding, pos: nat, types: seq<Type>, items: seq<Value>): Encoded
    requires TypedAll(types, items)
    decreases items, 0
  {
    var n := |items| - 1;
    if n < 0 then Ok([])
    else
      var init := EncodeAll(enc, pos, types[..n], items[..n]);
      if init.Err? then init
      else
        var last := Encode(enc, pos + |init.value|, types[n], items[n]);
        if last.Err? then last else Ok(init.value + last.value)
  }

  // ------------------------------------------------------------------ decoding

  /** A cursor over received octets: stream position 0 is at `origin`, and the
      current scope ends at `end`. */
  datatype Reader = Reader(data: seq<Octet>, pos: nat, origin: nat, end: nat, enc: Encoding)

  predicate ValidReader(r: Reader) {
    r.origin <= r.pos <= r.end <= |r.data|
  }

  type Decoded<T> = Result<(T, nat), CdrError>

  predicate Advances<T>(r: Reader, d: Decoded<T>) {
    d.Ok? ==> r.pos <= d.value.1 <= r.end
  }

  function GetNumber(r: Reader, width: nat): (d: Decoded<nat>)
    requires ValidReader(r)
    ensures Advances(r, d) && (d.Ok? ==> d.value.0 < Limit(width))
  {
    var pad := Pad(r.enc, r.pos - r.origin, width);
    if pad + width > r.end - r.pos then Err(Truncated)
    else
      var octets := r.data[r.pos + pad..r.pos + pad + width];
      OctetsFit(r.enc, octets);
      Ok((FromOctets(r.enc, octets), r.pos + pad + width))
  }

  /** The octets `n` parts take at the least, reckoning one octet a part at least. */
  function Needed(n: nat, partMin: nat): (r: nat)
    ensures n <= UsizeMax ==> r >= n
    ensures r <= n * partMin || r <= n
  {
    var least := if partMin < 1 then 1 else partMin;
    assert n * least >= n;
    Saturate(n * least)
  }

  /** A count is believed only if that many parts could still be there. */
  function GetCount(r: Reader, partMin: nat): (d: Decoded<nat>)
    requires ValidReader(r)
    ensures Advances(r, d)
    ensures d.Ok? ==> d.value.0 <= r.end - d.value.1
  {
    var declared := GetNumber(r, 4);
    if declared.Err? then declared
    else
      var (n, pos) := declared.value;
      LimitFour();
      if Needed(n, partMin) > r.end - pos then Err(LengthOverflow) else Ok((n, pos))
  }

  function DecodeText(r: Reader, bound: Option<nat>): (d: Decoded<Value>)
    requires ValidReader(r)
    ensures Advances(r, d)
  {
    var count := GetCount(r, 1);
    if count.Err? then Err(count.error)
    else
      var (len, pos) := count.value;
      if len == 0 || r.data[pos + len - 1] != 0 then Err(MissingNulTerminator)
      else
        var octets := r.data[pos..pos + len - 1];
        if 0 in octets then Err(InteriorNul)
        else if !IsUtf8(octets) then Err(InvalidUtf8)
        else if Exceeds(|octets|, bound) then Err(BoundExceeded)
        else Ok((Str(octets), pos + len))
  }

  function Decode(r: Reader, t: Type): (d: Decoded<Value>)
    requires ValidReader(r)
    ensures Advances(r, d)
    decreases Depth(t), 0, 2
  {
    match t
    case Boolean =>
      var number := GetNumber(r, 1);
      if number.Err? then Err(number.error)
      else if number.value.0 > 1 then Err(InvalidBoolean)
      else Ok((Num(number.value.0), number.value.1))
    case Number(w) =>
      var number := GetNumber(r, w);
      if number.Err? then Err(number.error) else Ok((Num(number.value.0), number.value.1))
    case WChar =>
      var number := GetNumber(r, WCharWidth(r.enc));
      if number.Err? then Err(number.error)
      else if number.value.0 > 0xffff then Err(InvalidUtf16)
      else Ok((Num(number.value.0), number.value.1))
    case Text(bound) => DecodeText(r, bound)
    case _ =>
      var parts := DecodeParts(r, t);
      if parts.Err? then Err(parts.error) else Ok((Items(parts.value.0), parts.value.1))
  }

  /** A framed scope ends where its frame says, whatever was read of it. */
  function DecodeParts(r: Reader, t: Type): (d: Decoded<seq<Value>>)
    requires ValidReader(r) && IsComposite(t)
    ensures Advances(r, d)
    decreases Depth(t), 0, 1
  {
    if !IsFramed(r.enc, t) then DecodeBody(r, t)
    else
      var frame := GetFrame(r);
      if frame.Err? then Err(frame.error)
      else
        var (length, pos) := frame.value;
        var body := DecodeBody(r.(pos := pos, end := pos + length), t);
        if body.Err? then body else Ok((body.value.0, pos + length))
  }

  /** The length of a delimited scope, which may not run past the enclosing one. */
  function GetFrame(r: Reader): (d: Decoded<nat>)
    requires ValidReader(r)
    ensures Advances(r, d)
    ensures d.Ok? ==> d.value.0 <= r.end - d.value.1
  {
    var length := GetNumber(r, 4);
    if length.Err? then length
    else if length.value.0 > r.end - length.value.1 then Err(DelimiterOverrun)
    else length
  }

  /** A sequence's bound is checked before its parts are read, a wide string's
      after. */
  function DecodeBody(r: Reader, t: Type): (d: Decoded<seq<Value>>)
    requires ValidReader(r) && IsComposite(t)
    ensures Advances(r, d)
    decreases Depth(t), 0, 0
  {
    if !IsCounted(t) then
      PartDepth(t, 0);
      DecodeAll(r, PartTypes(t, 0))
    else
      var count := GetCount(r, PartMin(r.enc, t));
      if count.Err? then Err(count.error)
      else
        var (n, pos) := count.value;
        PartDepth(t, n);
        if t.Sequence? && Exceeds(n, t.bound) then Err(BoundExceeded)
        else
          var all := DecodeAll(r.(pos := pos), PartTypes(t, n));
          if all.Ok? && t.WText? && Exceeds(n, t.bound) then Err(BoundExceeded) else all
  }

  function DecodeAll(r: Reader, types: seq<Type>): (d: Decoded<seq<Value>>)
    requires ValidReader(r)
    ensures Advances(r, d)
    decreases DepthAll(types), |types| + 1, 0
  {
    var n := |types| - 1;
    if n < 0 then Ok(([], r.pos))
    else
      var init := DecodeAll(r, types[..n]);
      if init.Err? then init
      else
        var last := Decode(r.(pos := init.value.1), types[n]);
        if last.Err? then Err(last.error) else Ok((init.value.0 + [last.value.0], last.value.1))
  }
}
