/** Encodings are canonical: they depend on the position only up to alignment, and
    what a peer sent is never longer when it is sent on. */
module CdrCanonical {
  import opened Wrappers
  import opened Align
  import opened Cdr
  import opened CdrRoundTrip

  /** The largest alignment of a stream. */
  function Cap(enc: Encoding): nat {
    if enc.v2 then 4 else 8
  }

  lemma SmallPowers()
    ensures Pow2(0) == 1 && Pow2(1) == 2 && Pow2(2) == 4 && Pow2(3) == 8
  {
    assert Pow2(1) == 2 * Pow2(0) && Pow2(2) == 2 * Pow2(1) && Pow2(3) == 2 * Pow2(2);
  }

  /** Every alignment in use is a power of two that divides the largest. */
  function Exponent(enc: Encoding, width: Width): (k: nat)
    ensures k <= (if enc.v2 then 2 else 3) && AlignFor(enc, width) == Pow2(k)
  {
    SmallPowers();
    if width == 1 then 0 else if width == 2 then 1 else if width == 4 || enc.v2 then 2 else 3
  }

  /** Padding depends on the position only modulo the largest alignment. */
  lemma PadShift(enc: Encoding, a: nat, b: nat, width: Width)
    requires a % Cap(enc) == b % Cap(enc)
    ensures Pad(enc, a, width) == Pad(enc, b, width)
  {
    hide PaddingTo, Pow2;
    var k := Exponent(enc, width);
    PaddingIsModular(a, k);
    PaddingIsModular(b, k);
    SameRemainder(a, b, k, Cap(enc));
  }

  lemma SameRemainder(a: nat, b: nat, k: nat, cap: nat)
    requires ((cap == 4 && k <= 2) || (cap == 8 && k <= 3)) && a % cap == b % cap
    ensures a % Pow2(k) == b % Pow2(k)
  {
    hide Pow2;
    SmallPowers();
    if cap == 8 { EightToFour(a, b); }
    if k == 0 {
      assert a % 1 == b % 1;
    } else if k == 1 {
      FourToTwo(a, b);
    }
  }

  lemma EightToFour(a: nat, b: nat)
    requires a % 8 == b % 8
    ensures a % 4 == b % 4
  {
    DivMod(a, 4, 2 * (a / 8) + (a % 8) / 4, (a % 8) % 4);
    DivMod(b, 4, 2 * (b / 8) + (b % 8) / 4, (b % 8) % 4);
  }

  lemma FourToTwo(a: nat, b: nat)
    requires a % 4 == b % 4
    ensures a % 2 == b % 2
  {
    DivMod(a, 2, 2 * (a / 4) + (a % 4) / 2, (a % 4) % 2);
    DivMod(b, 2, 2 * (b / 4) + (b % 4) / 2, (b % 4) % 2);
  }

  /** Starting later never ends earlier. */
  lemma PadMonotone(enc: Encoding, a: nat, b: nat, width: Width)
    requires a <= b
    ensures a + Pad(enc, a, width) <= b + Pad(enc, b, width)
  {
    var k := Exponent(enc, width);
    PaddingIsLeast(b, k, 0);
    PaddingIsLeast(a, k, b + Pad(enc, b, width) - a);
  }

  lemma SumShift(a: nat, b: nat, n: nat, m: nat)
    requires (m == 4 || m == 8) && a % m == b % m
    ensures (a + n) % m == (b + n) % m
  {
    var r := a % m + n;
    DivMod(a + n, m, a / m + r / m, r % m);
    DivMod(b + n, m, b / m + r / m, r % m);
  }

  /** The octets of a value depend on where it stands only modulo 8, or modulo 4
      under XCDR2. */
  lemma {:induction false} EncodeShift(enc: Encoding, a: nat, b: nat, t: Type, v: Value)
    requires Typed(t, v) && a % Cap(enc) == b % Cap(enc)
    ensures Encode(enc, a, t, v) == Encode(enc, b, t, v)
    decreases v, 2
  {
    match t
    case Boolean => PadShift(enc, a, b, 1);
    case Number(w) => PadShift(enc, a, b, w);
    case WChar => PadShift(enc, a, b, WCharWidth(enc));
    case Text(_) => PadShift(enc, a, b, 4);
    case _ => PartsShift(enc, a, b, t, v.items);
  }

  lemma {:induction false} PartsShift(enc: Encoding, a: nat, b: nat, t: Type, items: seq<Value>)
    requires IsComposite(t) && TypedAll(PartTypes(t, |items|), items) && a % Cap(enc) == b % Cap(enc)
    ensures EncodeParts(enc, a, t, items) == EncodeParts(enc, b, t, items)
    decreases items, 2
  {
    hide EncodeBody, TypedAll, Pad;
    PadShift(enc, a, b, 4);
    SumShift(a, b, Pad(enc, a, 4) + 4, Cap(enc));
    BodyShift(enc, BodyAt(enc, a, t), BodyAt(enc, b, t), t, items);
  }

  lemma {:induction false} BodyShift(enc: Encoding, a: nat, b: nat, t: Type, items: seq<Value>)
    requires IsComposite(t) && TypedAll(PartTypes(t, |items|), items) && a % Cap(enc) == b % Cap(enc)
    ensures EncodeBody(enc, a, t, items) == EncodeBody(enc, b, t, items)
    decreases items, 1
  {
    hide EncodeAll, TypedAll, Pad;
    PadShift(enc, a, b, 4);
    var count := |CountOctets(enc, a, t, |items|)|;
    SumShift(a, b, count, Cap(enc));
    AllShift(enc, a + count, b + count, PartTypes(t, |items|), items);
  }

  lemma {:induction false} AllShift(enc: Encoding, a: nat, b: nat, types: seq<Type>, items: seq<Value>)
    requires TypedAll(types, items) && a % Cap(enc) == b % Cap(enc)
    ensures EncodeAll(enc, a, types, items) == EncodeAll(enc, b, types, items)
    decreases items, 0
  {
    hide Encode, Typed;
    var n := |items| - 1;
    if n >= 0 {
      AllShift(enc, a, b, types[..n], items[..n]);
      var init := EncodeAll(enc, a, types[..n], items[..n]);
      if init.Ok? {
        SumShift(a, b, |init.value|, Cap(enc));
        EncodeShift(enc, a + |init.value|, b + |init.value|, types[n], items[n]);
      }
    }
  }

  // ------------------------------------------------------------- sending it on

  /** Written from `pos`, the octets end by stream position `end`. */
  predicate EndsBy(s: Encoded, pos: nat, end: int) {
    s.Ok? && pos + |s.value| <= end
  }

  /** A value some peer's octets were accepted as can be written, at the same
      place or before, and never runs further than those octets did. */
  lemma {:induction false} SentOnNoLonger(r: Reader, t: Type, pos: nat)
    requires ValidReader(r) && Decode(r, t).Ok? && pos <= r.pos - r.origin
    ensures var (v, end) := Decode(r, t).value;
            Typed(t, v) && EndsBy(Encode(r.enc, pos, t, v), pos, end - r.origin)
    decreases Depth(t), 0, 2
  {
    hide Decode, Encode, Typed, Acceptable;
    AcceptedIsAcceptable(r, t);
    if IsPrimitive(t) {
      PrimitiveEndsBy(r, t, pos);
    } else if t.Text? {
      TextEndsBy(r, t, pos);
    } else {
      PartsEndBy(r, t, pos);
    }
  }

  lemma PrimitiveEndsBy(r: Reader, t: Type, pos: nat)
    requires ValidReader(r) && IsPrimitive(t) && Decode(r, t).Ok? && pos <= r.pos - r.origin
    requires Typed(t, Decode(r, t).value.0)
    ensures var (v, end) := Decode(r, t).value;
            EndsBy(Encode(r.enc, pos, t, v), pos, end - r.origin)
  {
    hide GetNumber, PutNumber;
    match t
    case Boolean => NumberEndsBy(r, pos, 1);
    case Number(w) => NumberEndsBy(r, pos, w);
    case WChar => NumberEndsBy(r, pos, WCharWidth(r.enc));
  }

  lemma NumberEndsBy(r: Reader, pos: nat, width: Width)
    requires ValidReader(r) && GetNumber(r, width).Ok? && pos <= r.pos - r.origin
    ensures forall n :: pos + |PutNumber(r.enc, pos, width, n)| <= GetNumber(r, width).value.1 - r.origin
  {
    hide Pad, FromOctets;
    PadMonotone(r.enc, pos, r.pos - r.origin, width);
  }

  lemma TextEndsBy(r: Reader, t: Type, pos: nat)
    requires ValidReader(r) && t.Text? && Decode(r, t).Ok? && pos <= r.pos - r.origin
    requires Typed(t, Decode(r, t).value.0) && Acceptable(t, Decode(r, t).value.0)
    ensures EndsBy(Encode(r.enc, pos, t, Decode(r, t).value.0), pos, Decode(r, t).value.1 - r.origin)
  {
    hide GetNumber, IsUtf8, PutNumber;
    NumberEndsBy(r, pos, 4);
  }

  lemma {:induction false} PartsEndBy(r: Reader, t: Type, pos: nat)
    requires ValidReader(r) && IsComposite(t) && Decode(r, t).Ok? && pos <= r.pos - r.origin
    requires Typed(t, Decode(r, t).value.0) && Acceptable(t, Decode(r, t).value.0)
    ensures EndsBy(Encode(r.enc, pos, t, Decode(r, t).value.0), pos, Decode(r, t).value.1 - r.origin)
    decreases Depth(t), 0, 1
  {
    hide DecodeBody, GetNumber, EncodeBody, Pad, PutNumber;
    var v := Decode(r, t).value.0;
    TypedParts(t, v);
    assert Encode(r.enc, pos, t, v) == EncodeParts(r.enc, pos, t, v.items);
    if IsFramed(r.enc, t) {
      FramedOk(r, t);
      var (length, start) := GetFrame(r).value;
      DecodeFramed(r, t, length, start);
      var inner := r.(pos := start, end := start + length);
      FrameEndsBy(r, pos);
      BodyEndsBy(inner, t, start - r.origin);
      BodyShift(r.enc, BodyAt(r.enc, pos, t), start - r.origin, t, v.items);
    } else {
      DecodePlain(r, t);
      BodyEndsBy(r, t, pos);
    }
  }

  /** Under XCDR2, what follows a length of four octets starts at a multiple of
      four, wherever that is. */
  lemma FrameEndsBy(r: Reader, pos: nat)
    requires ValidReader(r) && r.enc.v2 && GetFrame(r).Ok? && pos <= r.pos - r.origin
    ensures var start := GetFrame(r).value.1 - r.origin;
            && GetFrame(r).value.0 <= U32Max
            && pos + Pad(r.enc, pos, 4) + 4 <= start
            && (pos + Pad(r.enc, pos, 4) + 4) % 4 == start % 4
            && forall n :: |PutNumber(r.enc, pos, 4, n)| == Pad(r.enc, pos, 4) + 4
  {
    hide FromOctets, Pad;
    LimitFour();
    NumberEndsBy(r, pos, 4);
    assert |PutNumber(r.enc, pos, 4, 0)| == Pad(r.enc, pos, 4) + 4;
    FourAligned(r.enc, pos);
    FourAligned(r.enc, r.pos - r.origin);
  }

  lemma FourAligned(enc: Encoding, pos: nat)
    ensures (pos + Pad(enc, pos, 4)) % 4 == 0
  {
    hide PaddingTo, Pow2;
    SmallPowers();
    PaddingIsLeast(pos, 2, 0);
  }

  lemma {:induction false} BodyEndsBy(r: Reader, t: Type, pos: nat)
    requires ValidReader(r) && IsComposite(t) && DecodeBody(r, t).Ok? && pos <= r.pos - r.origin
    requires Typed(t, Items(DecodeBody(r, t).value.0)) && Acceptable(t, Items(DecodeBody(r, t).value.0))
    ensures EndsBy(EncodeBody(r.enc, pos, t, DecodeBody(r, t).value.0), pos, DecodeBody(r, t).value.1 - r.origin)
    decreases Depth(t), 0, 0
  {
    hide GetNumber, DecodeAll, PutNumber, EncodeAll, Typed, Acceptable, Needed, Exceeds, PartMin;
    TypedParts(t, Items(DecodeBody(r, t).value.0));
    var items := DecodeBody(r, t).value.0;
    if IsCounted(t) {
      var (n, start) := GetCount(r, PartMin(r.enc, t)).value;
      NumberEndsBy(r, pos, 4);
      PartDepth(t, n);
      AcceptedAll(r.(pos := start), PartTypes(t, n));
      AllEndBy(r.(pos := start), PartTypes(t, n), pos + |PutNumber(r.enc, pos, 4, n)|);
    } else {
      PartDepth(t, 0);
      AcceptedAll(r, PartTypes(t, 0));
      AllEndBy(r, PartTypes(t, 0), pos);
    }
  }

  lemma {:induction false} AllEndBy(r: Reader, types: seq<Type>, pos: nat)
    requires ValidReader(r) && DecodeAll(r, types).Ok? && pos <= r.pos - r.origin
    ensures var (items, end) := DecodeAll(r, types).value;
            TypedAll(types, items) && EndsBy(EncodeAll(r.enc, pos, types, items), pos, end - r.origin)
    decreases DepthAll(types), |types| + 1, 0
  {
    hide Decode, DecodeAll, Typed, Encode, EncodeAll, Acceptable;
    AcceptedAll(r, types);
    var n := |types| - 1;
    if n < 0 {
      NothingBack(r, types, [], 0);
      assert EncodeAll(r.enc, pos, [], []) == Ok([]) by { NothingWritten(r.enc, pos); }
    } else {
      DecodeSnoc(r, types);
      AllEndBy(r, types[..n], pos);
      var (items, mid) := DecodeAll(r, types[..n]).value;
      var init := EncodeAll(r.enc, pos, types[..n], items).value;
      SentOnNoLonger(r.(pos := mid), types[n], pos + |init|);
      var all := DecodeAll(r, types).value.0;
      assert all[..n] == items && all[n] == Decode(r.(pos := mid), types[n]).value.0;
      assert types[..n + 1] == types && all[..n + 1] == all;
      EncodeNext(r.enc, pos, types, all, n);
    }
  }

  lemma NothingWritten(enc: Encoding, pos: nat)
    ensures EncodeAll(enc, pos, [], []) == Ok([])
  {}

  /** Sending on what was accepted and reading it again changes nothing. */
  lemma SentOnUnchanged(r: Reader, t: Type, again: Reader, s: seq<Octet>)
    requires ValidReader(r) && Grounded(t) && Decode(r, t).Ok?
    requires ValidReader(again) && again.enc == r.enc && again.pos - again.origin == r.pos - r.origin
    requires Typed(t, Decode(r, t).value.0) && Encode(r.enc, r.pos - r.origin, t, Decode(r, t).value.0) == Ok(s)
    requires At(again, s)
    ensures Decode(again, t).Ok? && Decode(again, t).value.0 == Decode(r, t).value.0
    ensures |s| <= Decode(r, t).value.1 - r.pos
  {
    hide Decode, Encode, Typed, Grounded;
    SentOnNoLonger(r, t, r.pos - r.origin);
    GroundedRoundTrip(again, t, Decode(r, t).value.0, s);
  }
}
