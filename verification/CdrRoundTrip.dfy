/** What decoding makes of an encoding, and what it accepts at all. */
module CdrRoundTrip {
  import opened Wrappers
  import opened Cdr

  // ------------------------------------------------- the least size is a bound

  /** The least octets of a value, knowing how wide characters are carried. */
  function LeastOctets(enc: Encoding, t: Type): nat {
    if t.WChar? then WCharWidth(enc) else MinSize(t)
  }

  /** Where the body of a composite starts: after its frame, if it has one. */
  function BodyAt(enc: Encoding, pos: nat, t: Type): nat {
    if IsFramed(enc, t) then pos + Pad(enc, pos, 4) + 4 else pos
  }

  /** An encoded composite is its frame, if any, and its encoded body. */
  lemma CompositeLayout(enc: Encoding, pos: nat, t: Type, v: Value)
    requires IsComposite(t) && Typed(t, v) && Encode(enc, pos, t, v).Ok?
    ensures !Exceeds(|v.items|, BoundOf(t))
    ensures var body := EncodeBody(enc, BodyAt(enc, pos, t), t, v.items);
            && body.Ok?
            && (IsFramed(enc, t) ==>
                  |body.value| <= U32Max
                  && Encode(enc, pos, t, v).value == PutNumber(enc, pos, 4, |body.value|) + body.value)
            && (!IsFramed(enc, t) ==> Encode(enc, pos, t, v) == body)
  {
    hide Pad, PutNumber, Typed, EncodeBody;
    TypedParts(t, v);
    assert Encode(enc, pos, t, v) == EncodeParts(enc, pos, t, v.items);
  }

  /** An encoded body is its count, if any, and its encoded parts. */
  lemma BodyLayout(enc: Encoding, pos: nat, t: Type, items: seq<Value>)
    requires IsComposite(t) && TypedAll(PartTypes(t, |items|), items) && EncodeBody(enc, pos, t, items).Ok?
    ensures var count := CountOctets(enc, pos, t, |items|);
            var all := EncodeAll(enc, pos + |count|, PartTypes(t, |items|), items);
            && (IsCounted(t) ==> |items| <= U32Max)
            && all.Ok? && EncodeBody(enc, pos, t, items).value == count + all.value
  {
    hide EncodeAll, CountOctets;
  }

  lemma AllLayout(enc: Encoding, pos: nat, types: seq<Type>, items: seq<Value>)
    requires TypedAll(types, items) && items != [] && EncodeAll(enc, pos, types, items).Ok?
    ensures var n := |items| - 1;
            var init := EncodeAll(enc, pos, types[..n], items[..n]);
            init.Ok? &&
            var last := Encode(enc, pos + |init.value|, types[n], items[n]);
            last.Ok? && EncodeAll(enc, pos, types, items).value == init.value + last.value
  {
    hide Encode, Typed;
  }

  lemma EncodeNext(enc: Encoding, pos: nat, types: seq<Type>, items: seq<Value>, k: nat)
    requires TypedAll(types, items) && k < |items| && EncodeAll(enc, pos, types[..k], items[..k]).Ok?
    ensures var init := EncodeAll(enc, pos, types[..k], items[..k]).value;
            var last := Encode(enc, pos + |init|, types[k], items[k]);
            EncodeAll(enc, pos, types[..k + 1], items[..k + 1]) == if last.Err? then last else Ok(init + last.value)
  {
    hide Encode, Typed;
    assert types[..k + 1][..k] == types[..k] && items[..k + 1][..k] == items[..k];
  }

  lemma TypedParts(t: Type, v: Value)
    requires IsComposite(t) && Typed(t, v)
    ensures v.Items? && TypedAll(PartTypes(t, |v.items|), v.items)
  {}

  /** No encoding is shorter than the size its type declares as the least. */
  lemma {:induction false} MinSizeHolds(enc: Encoding, pos: nat, t: Type, v: Value)
    requires Typed(t, v) && Encode(enc, pos, t, v).Ok?
    ensures |Encode(enc, pos, t, v).value| >= LeastOctets(enc, t)
    decreases v, 1
  {
    if IsComposite(t) { CompositeAtLeast(enc, pos, t, v); }
  }

  lemma {:induction false} CompositeAtLeast(enc: Encoding, pos: nat, t: Type, v: Value)
    requires Typed(t, v) && IsComposite(t) && Encode(enc, pos, t, v).Ok?
    ensures |Encode(enc, pos, t, v).value| >= LeastOctets(enc, t)
    decreases v, 0
  {
    hide Encode, EncodeBody, EncodeAll, Typed, Pad;
    TypedParts(t, v);
    CompositeLayout(enc, pos, t, v);
    var at := BodyAt(enc, pos, t);
    BodyLayout(enc, at, t, v.items);
    var start, parts := at + |CountOctets(enc, at, t, |v.items|)|, PartTypes(t, |v.items|);
    match t
    case Array(e, c) => PartsAtLeast(enc, start, parts, v.items, MinSize(e));
    case Struct(_, members) => MinSizeAllHolds(enc, start, parts, v.items);
    case _ =>
  }

  lemma {:induction false} PartsAtLeast(enc: Encoding, pos: nat, types: seq<Type>, items: seq<Value>, m: nat)
    requires TypedAll(types, items) && EncodeAll(enc, pos, types, items).Ok?
    requires forall i | 0 <= i < |types| :: LeastOctets(enc, types[i]) >= m
    ensures |EncodeAll(enc, pos, types, items).value| >= |items| * m
    decreases items, 0
  {
    hide Encode, EncodeAll, Typed, LeastOctets;
    var n := |items| - 1;
    if n >= 0 {
      AllLayout(enc, pos, types, items);
      PartsAtLeast(enc, pos, types[..n], items[..n], m);
      MinSizeHolds(enc, pos + |EncodeAll(enc, pos, types[..n], items[..n]).value|, types[n], items[n]);
      assert (n + 1) * m == n * m + m;
    }
  }

  lemma {:induction false} MinSizeAllHolds(enc: Encoding, pos: nat, types: seq<Type>, items: seq<Value>)
    requires TypedAll(types, items) && EncodeAll(enc, pos, types, items).Ok?
    ensures |EncodeAll(enc, pos, types, items).value| >= MinSizeAll(types)
    decreases items, 0
  {
    hide Encode, EncodeAll, Typed, MinSize;
    var n := |items| - 1;
    if n >= 0 {
      AllLayout(enc, pos, types, items);
      MinSizeAllHolds(enc, pos, types[..n], items[..n]);
      MinSizeHolds(enc, pos + |EncodeAll(enc, pos, types[..n], items[..n]).value|, types[n], items[n]);
      LeastIsMin(enc, types[n]);
    }
  }

  lemma LeastIsMin(enc: Encoding, t: Type)
    ensures LeastOctets(enc, t) >= MinSize(t)
  {}

  // ------------------------------------------------------------ when it decodes

  /** Whether every count inside `v` will be believed when `after` more octets
      follow it in its scope. */
  ghost predicate Fits(enc: Encoding, pos: nat, t: Type, v: Value, after: nat)
    requires Typed(t, v) && Encode(enc, pos, t, v).Ok?
    decreases v, 2
  {
    if !IsComposite(t) then true
    else
      CompositeLayout(enc, pos, t, v);
      FitsBody(enc, BodyAt(enc, pos, t), t, v.items, if IsFramed(enc, t) then 0 else after)
  }

  ghost predicate FitsBody(enc: Encoding, pos: nat, t: Type, items: seq<Value>, after: nat)
    requires IsComposite(t) && TypedAll(PartTypes(t, |items|), items) && EncodeBody(enc, pos, t, items).Ok?
    decreases items, 1
  {
    BodyLayout(enc, pos, t, items);
    var start, parts := pos + |CountOctets(enc, pos, t, |items|)|, PartTypes(t, |items|);
    && (IsCounted(t) ==> Needed(|items|, PartMin(enc, t)) <= |EncodeAll(enc, start, parts, items).value| + after)
    && FitsAll(enc, start, parts, items, after)
  }

  ghost predicate FitsAll(enc: Encoding, pos: nat, types: seq<Type>, items: seq<Value>, after: nat)
    requires TypedAll(types, items) && EncodeAll(enc, pos, types, items).Ok?
    decreases items, 0
  {
    var n := |items| - 1;
    if n < 0 then true
    else
      AllLayout(enc, pos, types, items);
      var init := EncodeAll(enc, pos, types[..n], items[..n]).value;
      var last := Encode(enc, pos + |init|, types[n], items[n]).value;
      && FitsAll(enc, pos, types[..n], items[..n], after + |last|)
      && Fits(enc, pos + |init|, types[n], items[n], after)
  }

  /** The octets at the cursor, inside the scope. */
  ghost predicate At(r: Reader, s: seq<Octet>) {
    ValidReader(r) && r.pos + |s| <= r.end && r.data[r.pos..r.pos + |s|] == s
  }

  lemma AtSplit(r: Reader, a: seq<Octet>, b: seq<Octet>)
    requires At(r, a + b)
    ensures At(r, a) && At(r.(pos := r.pos + |a|), b)
  {
    var s := a + b;
    assert s[..|a|] == a && s[|a|..] == b;
    assert r.data[r.pos..r.pos + |s|][..|a|] == r.data[r.pos..r.pos + |a|];
    assert r.data[r.pos..r.pos + |s|][|a|..] == r.data[r.pos + |a|..r.pos + |s|];
  }

  lemma NumberRoundTrip(enc: Encoding, width: nat, n: nat)
    requires n < Limit(width)
    ensures FromOctets(enc, NumberOctets(enc, width, n)) == n
  {
    EndianRoundTrip(width, n);
  }

  lemma NumberBack(r: Reader, width: nat, n: nat)
    requires ValidReader(r) && n < Limit(width) && At(r, PutNumber(r.enc, r.pos - r.origin, width, n))
    ensures GetNumber(r, width) == Ok((n, r.pos + |PutNumber(r.enc, r.pos - r.origin, width, n)|))
  {
    hide Pad, Limit, FromOctets, NumberOctets;
    var pad, octets := Pad(r.enc, r.pos - r.origin, width), NumberOctets(r.enc, width, n);
    AtSplit(r, Zeros(pad), octets);
    NumberRoundTrip(r.enc, width, n);
  }

  /** The result of decoding a composite whose body is at `pos`, up to `end`. */
  function Wrapped(d: Decoded<seq<Value>>, end: nat): Decoded<Value> {
    if d.Err? then Err(d.error) else Ok((Items(d.value.0), end))
  }

  lemma DecodePlain(r: Reader, t: Type)
    requires ValidReader(r) && IsComposite(t) && !IsFramed(r.enc, t)
    ensures var d := DecodeBody(r, t); Decode(r, t) == Wrapped(d, if d.Ok? then d.value.1 else 0)
  {
    hide DecodeBody;
    assert DecodeParts(r, t) == DecodeBody(r, t);
  }

  lemma DecodeFramed(r: Reader, t: Type, length: nat, pos: nat)
    requires ValidReader(r) && IsComposite(t) && IsFramed(r.enc, t) && GetFrame(r) == Ok((length, pos))
    ensures Decode(r, t) == Wrapped(DecodeBody(r.(pos := pos, end := pos + length), t), pos + length)
  {
    hide DecodeBody, GetFrame;
    var body := DecodeBody(r.(pos := pos, end := pos + length), t);
    assert DecodeParts(r, t) == if body.Err? then body else Ok((body.value.0, pos + length));
  }

  lemma DecodeCounted(r: Reader, t: Type, n: nat, pos: nat)
    requires ValidReader(r) && IsCounted(t) && GetNumber(r, 4) == Ok((n, pos)) && !Exceeds(n, BoundOf(t))
    ensures DecodeBody(r, t) == if Needed(n, PartMin(r.enc, t)) > r.end - pos then Err(LengthOverflow)
                                else DecodeAll(r.(pos := pos), PartTypes(t, n))
  {
    hide DecodeAll, GetNumber, Needed, PartMin;
  }

  lemma DecodeUncounted(r: Reader, t: Type, n: nat)
    requires ValidReader(r) && IsComposite(t) && !IsCounted(t)
    ensures DecodeBody(r, t) == DecodeAll(r, PartTypes(t, n))
  {
    hide DecodeAll;
  }

  lemma DecodeSnoc(r: Reader, types: seq<Type>)
    requires ValidReader(r) && types != []
    ensures var n := |types| - 1;
            var init := DecodeAll(r, types[..n]);
            && (init.Err? ==> DecodeAll(r, types) == init)
            && (init.Ok? ==>
                 var last := Decode(r.(pos := init.value.1), types[n]);
                 DecodeAll(r, types) == if last.Err? then Err(last.error)
                   else Ok((init.value.0 + [last.value.0], last.value.1)))
  {
    hide Decode;
  }

  /** The reader reads the value back, from any position and whatever precedes
      and follows, exactly when every count in it is believed. */
  lemma {:induction false} RoundTrip(r: Reader, t: Type, v: Value, s: seq<Octet>)
    requires ValidReader(r) && Typed(t, v) && Encode(r.enc, r.pos - r.origin, t, v) == Ok(s) && At(r, s)
    ensures Decode(r, t) == if Fits(r.enc, r.pos - r.origin, t, v, r.end - r.pos - |s|) then Ok((v, r.pos + |s|))
            else Err(LengthOverflow)
    decreases v, 2
  {
    hide PutNumber, GetNumber, EncodeParts, DecodeParts, DecodeText, FitsBody, IsUtf8, Limit, At;
    match t
    case Boolean =>
      assert v.n < Limit(1) by { OctetLimit(); }
      NumberBack(r, 1, v.n);
    case Number(w) => NumberBack(r, w, v.n);
    case WChar =>
      WCharFits(r.enc, v.n);
      NumberBack(r, WCharWidth(r.enc), v.n);
    case Text(_) => TextBack(r, t, v, s);
    case _ => PartsBack(r, t, v.items, s);
  }

  lemma OctetLimit()
    ensures Limit(1) == 256
  {}

  lemma WCharFits(enc: Encoding, n: nat)
    requires n < 0x1_0000
    ensures n < Limit(WCharWidth(enc))
  {
    LimitFour();
    assert Limit(2) == 256 * Limit(1) && Limit(1) == 256 * Limit(0);
  }

  lemma TextBack(r: Reader, t: Type, v: Value, s: seq<Octet>)
    requires ValidReader(r) && t.Text? && Typed(t, v) && Encode(r.enc, r.pos - r.origin, t, v) == Ok(s) && At(r, s)
    ensures Decode(r, t) == Ok((v, r.pos + |s|))
  {
    hide PutNumber, GetNumber, GetCount, At, IsUtf8;
    var count := PutNumber(r.enc, r.pos - r.origin, 4, |v.octets| + 1);
    assert s == count + (v.octets + [0]);
    AtSplit(r, count, v.octets + [0]);
    var q := r.(pos := r.pos + |count|);
    TerminatedAt(q, v.octets);
    TextCountBack(r, |v.octets| + 1);
    assert Decode(r, t) == DecodeText(r, t.bound);
  }

  lemma TextCountBack(r: Reader, n: nat)
    requires ValidReader(r) && n <= U32Max && At(r, PutNumber(r.enc, r.pos - r.origin, 4, n))
    requires r.pos + |PutNumber(r.enc, r.pos - r.origin, 4, n)| + n <= r.end
    ensures GetCount(r, 1) == Ok((n, r.pos + |PutNumber(r.enc, r.pos - r.origin, 4, n)|))
  {
    hide PutNumber, GetNumber, At;
    LimitFour();
    NumberBack(r, 4, n);
  }

  lemma TerminatedAt(r: Reader, octets: seq<Octet>)
    requires At(r, octets + [0])
    ensures r.pos + |octets| < r.end && r.data[r.pos..r.pos + |octets|] == octets && r.data[r.pos + |octets|] == 0
  {
    AtSplit(r, octets, [0]);
    assert r.data[r.pos + |octets|] == r.data[r.pos + |octets|..r.pos + |octets| + 1][0];
  }

  lemma {:induction false} PartsBack(r: Reader, t: Type, items: seq<Value>, s: seq<Octet>)
    requires ValidReader(r) && IsComposite(t) && Typed(t, Items(items))
    requires Encode(r.enc, r.pos - r.origin, t, Items(items)) == Ok(s) && At(r, s)
    ensures Decode(r, t) == if Fits(r.enc, r.pos - r.origin, t, Items(items), r.end - r.pos - |s|)
                            then Ok((Items(items), r.pos + |s|)) else Err(LengthOverflow)
    decreases items, 2
  {
    hide Encode, EncodeBody, Typed, TypedAll, Decode, DecodeBody, PutNumber, GetNumber, At, FitsBody, Exceeds;
    var pos := r.pos - r.origin;
    TypedParts(t, Items(items));
    CompositeLayout(r.enc, pos, t, Items(items));
    if IsFramed(r.enc, t) {
      var body := EncodeBody(r.enc, BodyAt(r.enc, pos, t), t, items).value;
      var frame := PutNumber(r.enc, pos, 4, |body|);
      AtSplit(r, frame, body);
      FrameBack(r, body);
      DecodeFramed(r, t, |body|, r.pos + |frame|);
      BodyBack(r.(pos := r.pos + |frame|, end := r.pos + |frame| + |body|), t, items, body);
    } else {
      DecodePlain(r, t);
      BodyBack(r, t, items, s);
    }
  }

  lemma FrameBack(r: Reader, body: seq<Octet>)
    requires ValidReader(r) && |body| <= U32Max
    requires At(r, PutNumber(r.enc, r.pos - r.origin, 4, |body|) + body)
    ensures var frame := PutNumber(r.enc, r.pos - r.origin, 4, |body|);
            && GetFrame(r) == Ok((|body|, r.pos + |frame|))
            && r.pos - r.origin + |frame| == r.pos - r.origin + Pad(r.enc, r.pos - r.origin, 4) + 4
            && At(r.(pos := r.pos + |frame|, end := r.pos + |frame| + |body|), body)
  {
    hide GetNumber, Pad;
    var frame := PutNumber(r.enc, r.pos - r.origin, 4, |body|);
    AtSplit(r, frame, body);
    LimitFour();
    NumberBack(r, 4, |body|);
  }

  lemma {:induction false} BodyBack(r: Reader, t: Type, items: seq<Value>, s: seq<Octet>)
    requires ValidReader(r) && IsComposite(t) && TypedAll(PartTypes(t, |items|), items) && !Exceeds(|items|, BoundOf(t))
    requires EncodeBody(r.enc, r.pos - r.origin, t, items) == Ok(s) && At(r, s)
    ensures DecodeBody(r, t) == if FitsBody(r.enc, r.pos - r.origin, t, items, r.end - r.pos - |s|)
                                then Ok((items, r.pos + |s|)) else Err(LengthOverflow)
    decreases items, 1
  {
    hide EncodeBody, EncodeAll, TypedAll, DecodeBody, DecodeAll, PutNumber, GetNumber, At, FitsAll, Exceeds, Needed,
         PartMin, BoundOf, PartTypes;
    var pos, n := r.pos - r.origin, |items|;
    BodyLayout(r.enc, pos, t, items);
    var count := CountOctets(r.enc, pos, t, n);
    var all := EncodeAll(r.enc, pos + |count|, PartTypes(t, n), items).value;
    AtSplit(r, count, all);
    AtValid(r.(pos := r.pos + |count|), all);
    AllBack(r.(pos := r.pos + |count|), PartTypes(t, n), items, all);
    if IsCounted(t) {
      LimitFour();
      NumberBack(r, 4, n);
      DecodeCounted(r, t, n, r.pos + |count|);
    } else {
      assert r.(pos := r.pos + |count|) == r;
      DecodeUncounted(r, t, n);
    }
  }

  lemma AtValid(r: Reader, s: seq<Octet>)
    requires At(r, s)
    ensures ValidReader(r) && r.pos + |s| <= r.end
  {}

  lemma {:induction false} AllBack(r: Reader, types: seq<Type>, items: seq<Value>, s: seq<Octet>)
    requires ValidReader(r) && TypedAll(types, items)
    requires EncodeAll(r.enc, r.pos - r.origin, types, items) == Ok(s) && At(r, s)
    ensures DecodeAll(r, types) == if FitsAll(r.enc, r.pos - r.origin, types, items, r.end - r.pos - |s|)
                                   then Ok((items, r.pos + |s|)) else Err(LengthOverflow)
    decreases items, 0
  {
    hide Encode, EncodeAll, Typed, Decode, DecodeAll, At, Fits, FitsAll;
    var n, pos := |items| - 1, r.pos - r.origin;
    if n < 0 {
      NothingBack(r, types, items, r.end - r.pos);
    } else {
      AllLayout(r.enc, pos, types, items);
      var init := EncodeAll(r.enc, pos, types[..n], items[..n]).value;
      var last := Encode(r.enc, pos + |init|, types[n], items[n]).value;
      AtSplit(r, init, last);
      AtValid(r, init);
      AllBack(r, types[..n], items[..n], init);
      RoundTrip(r.(pos := r.pos + |init|), types[n], items[n], last);
      DecodeSnoc(r, types);
      FitsSnoc(r.enc, pos, types, items, init, last, r.end - r.pos - |s|);
      assert items[..n] + [items[n]] == items;
    }
  }

  lemma NothingBack(r: Reader, types: seq<Type>, items: seq<Value>, after: nat)
    requires ValidReader(r) && types == [] && items == []
    ensures EncodeAll(r.enc, r.pos - r.origin, types, items) == Ok([])
    ensures DecodeAll(r, types) == Ok((items, r.pos))
    ensures FitsAll(r.enc, r.pos - r.origin, types, items, after)
  {}

  lemma FitsSnoc(enc: Encoding, pos: nat, types: seq<Type>, items: seq<Value>, init: seq<Octet>, last: seq<Octet>,
                 after: nat)
    requires TypedAll(types, items) && items != [] && EncodeAll(enc, pos, types, items).Ok?
    requires EncodeAll(enc, pos, types[..|items| - 1], items[..|items| - 1]) == Ok(init)
    requires Encode(enc, pos + |init|, types[|items| - 1], items[|items| - 1]) == Ok(last)
    ensures var n := |items| - 1;
            FitsAll(enc, pos, types, items, after) <==>
              FitsAll(enc, pos, types[..n], items[..n], after + |last|)
                && Fits(enc, pos + |init|, types[n], items[n], after)
  {
    hide Encode, EncodeAll, Typed, Fits;
  }

  // ------------------------------------------------------ types that always fit

  /** No sequence inside the type has elements that may take no octets at all. */
  predicate Grounded(t: Type) {
    match t
    case Sequence(e, _) => MinSize(e) >= 1 && Grounded(e)
    case Array(e, _) => Grounded(e)
    case Struct(_, members) => forall i | 0 <= i < |members| :: Grounded(members[i])
    case _ => true
  }

  lemma GroundedParts(t: Type, n: nat)
    requires IsComposite(t) && Grounded(t)
    ensures forall i | 0 <= i < |PartTypes(t, n)| :: Grounded(PartTypes(t, n)[i])
  {}

  lemma {:induction false} GroundedFits(enc: Encoding, pos: nat, t: Type, v: Value, after: nat)
    requires Typed(t, v) && Encode(enc, pos, t, v).Ok? && Grounded(t)
    ensures Fits(enc, pos, t, v, after)
    decreases v, 2
  {
    hide Encode, EncodeBody, Typed, FitsBody;
    if IsComposite(t) {
      TypedParts(t, v);
      CompositeLayout(enc, pos, t, v);
      GroundedFitsBody(enc, BodyAt(enc, pos, t), t, v.items, if IsFramed(enc, t) then 0 else after);
    }
  }

  lemma {:induction false} GroundedFitsBody(enc: Encoding, pos: nat, t: Type, items: seq<Value>, after: nat)
    requires IsComposite(t) && TypedAll(PartTypes(t, |items|), items) && EncodeBody(enc, pos, t, items).Ok?
    requires Grounded(t)
    ensures FitsBody(enc, pos, t, items, after)
    decreases items, 1
  {
    hide EncodeBody, EncodeAll, TypedAll, FitsAll, Grounded;
    BodyLayout(enc, pos, t, items);
    var start, parts := pos + |CountOctets(enc, pos, t, |items|)|, PartTypes(t, |items|);
    GroundedParts(t, |items|);
    GroundedFitsAll(enc, start, parts, items, after);
    if IsCounted(t) {
      CountedMin(enc, t, |items|);
      PartsAtLeast(enc, start, parts, items, PartMin(enc, t));
      NeededAtMost(|items|, PartMin(enc, t));
    }
  }

  lemma CountedMin(enc: Encoding, t: Type, n: nat)
    requires IsCounted(t) && Grounded(t)
    ensures PartMin(enc, t) >= 1
    ensures forall i | 0 <= i < |PartTypes(t, n)| :: LeastOctets(enc, PartTypes(t, n)[i]) >= PartMin(enc, t)
  {}

  lemma NeededAtMost(n: nat, partMin: nat)
    requires partMin >= 1
    ensures Needed(n, partMin) <= n * partMin
  {}

  lemma {:induction false} GroundedFitsAll(enc: Encoding, pos: nat, types: seq<Type>, items: seq<Value>, after: nat)
    requires TypedAll(types, items) && EncodeAll(enc, pos, types, items).Ok?
    requires forall i | 0 <= i < |types| :: Grounded(types[i])
    ensures FitsAll(enc, pos, types, items, after)
    decreases items, 0
  {
    hide Encode, EncodeAll, Typed, Fits, Grounded;
    var n := |items| - 1;
    if n >= 0 {
      AllLayout(enc, pos, types, items);
      var init := EncodeAll(enc, pos, types[..n], items[..n]).value;
      var last := Encode(enc, pos + |init|, types[n], items[n]).value;
      GroundedFitsAll(enc, pos, types[..n], items[..n], after + |last|);
      GroundedFits(enc, pos + |init|, types[n], items[n], after);
    }
  }

  /** Every value of a grounded type that encodes at all decodes to itself, using
      exactly its own octets, wherever it stands. */
  lemma GroundedRoundTrip(r: Reader, t: Type, v: Value, s: seq<Octet>)
    requires ValidReader(r) && Grounded(t) && Typed(t, v) && Encode(r.enc, r.pos - r.origin, t, v) == Ok(s) && At(r, s)
    ensures Decode(r, t) == Ok((v, r.pos + |s|))
  {
    hide Encode, Decode, Fits, Typed, Grounded;
    GroundedFits(r.enc, r.pos - r.origin, t, v, r.end - r.pos - |s|);
    RoundTrip(r, t, v, s);
  }

  const EmptyStruct := Struct(false, [])

  /** A sequence of empty structures is written without complaint and then, with
      nothing behind it, refused. */
  lemma EmptyPartsRefused(r: Reader, n: nat, s: seq<Octet>)
    requires ValidReader(r) && 0 < n <= U32Max
    requires var t, v := Sequence(EmptyStruct, None), Items(seq(n, _ => Items([])));
             Typed(t, v) && Encode(r.enc, r.pos - r.origin, t, v) == Ok(s) && At(r, s) && r.end == r.pos + |s|
    ensures Decode(r, Sequence(EmptyStruct, None)) == Err(LengthOverflow)
  {
    hide Encode, EncodeBody, Decode, Typed, EncodeAll, At, FitsAll, CountOctets, Pad;
    var t, items := Sequence(EmptyStruct, None), seq(n, _ => Items([]));
    var pos := r.pos - r.origin;
    TypedParts(t, Items(items));
    CompositeLayout(r.enc, pos, t, Items(items));
    var at := BodyAt(r.enc, pos, t);
    BodyLayout(r.enc, at, t, items);
    var start := at + |CountOctets(r.enc, at, t, n)|;
    EmptyPartsWeightless(r.enc, start, items);
    assert MinSizeAll([]) == 0;
    RoundTrip(r, t, Items(items), s);
  }

  lemma {:induction false} EmptyPartsWeightless(enc: Encoding, pos: nat, items: seq<Value>)
    requires TypedAll(Repeat(EmptyStruct, |items|), items)
    ensures EncodeAll(enc, pos, Repeat(EmptyStruct, |items|), items) == Ok([])
  {
    var n := |items| - 1;
    if n >= 0 {
      assert Repeat(EmptyStruct, n + 1)[..n] == Repeat(EmptyStruct, n);
      EmptyPartsWeightless(enc, pos, items[..n]);
      EmptyWeightless(enc, pos, items[n]);
    }
  }

  lemma EmptyWeightless(enc: Encoding, pos: nat, v: Value)
    requires Typed(EmptyStruct, v)
    ensures Encode(enc, pos, EmptyStruct, v) == Ok([])
  {
    assert v.items == [];
    assert EncodeAll(enc, pos, [], []) == Ok([]) && CountOctets(enc, pos, EmptyStruct, 0) == [];
    assert EncodeBody(enc, pos, EmptyStruct, []).value == [];
    assert EncodeParts(enc, pos, EmptyStruct, []) == Ok([]);
  }

  // ------------------------------------------------------- what decoding accepts

  /** Whatever the octets, a value that is accepted is one of its type, within
      every bound of it and with no NUL inside its text. */
  lemma {:induction false} AcceptedIsAcceptable(r: Reader, t: Type)
    requires ValidReader(r) && Decode(r, t).Ok?
    ensures Typed(t, Decode(r, t).value.0) && Acceptable(t, Decode(r, t).value.0)
    decreases Depth(t), 0, 2
  {
    if IsComposite(t) {
      AcceptedParts(r, t);
    } else if t.Text? {
      AcceptedText(r, t);
    }
  }

  lemma AcceptedText(r: Reader, t: Type)
    requires ValidReader(r) && t.Text? && Decode(r, t).Ok?
    ensures Typed(t, Decode(r, t).value.0) && Acceptable(t, Decode(r, t).value.0)
  {
    hide GetNumber, IsUtf8;
    LimitFour();
  }

  lemma {:induction false} AcceptedParts(r: Reader, t: Type)
    requires ValidReader(r) && IsComposite(t) && Decode(r, t).Ok?
    ensures Typed(t, Decode(r, t).value.0) && Acceptable(t, Decode(r, t).value.0)
    decreases Depth(t), 0, 1
  {
    hide DecodeBody, GetNumber;
    if IsFramed(r.enc, t) {
      FramedOk(r, t);
      var (length, pos) := GetFrame(r).value;
      DecodeFramed(r, t, length, pos);
      AcceptedBody(r.(pos := pos, end := pos + length), t);
    } else {
      DecodePlain(r, t);
      AcceptedBody(r, t);
    }
  }

  lemma FramedOk(r: Reader, t: Type)
    requires ValidReader(r) && IsComposite(t) && IsFramed(r.enc, t) && Decode(r, t).Ok?
    ensures GetFrame(r).Ok?
  {
    hide GetFrame, DecodeBody;
    assert DecodeParts(r, t).Ok?;
  }

  lemma {:induction false} AcceptedBody(r: Reader, t: Type)
    requires ValidReader(r) && IsComposite(t) && DecodeBody(r, t).Ok?
    ensures Typed(t, Items(DecodeBody(r, t).value.0)) && Acceptable(t, Items(DecodeBody(r, t).value.0))
    decreases Depth(t), 0, 0
  {
    hide GetNumber, DecodeAll;
    if IsCounted(t) {
      var (n, pos) := GetCount(r, PartMin(r.enc, t)).value;
      PartDepth(t, n);
      LimitFour();
      AcceptedAll(r.(pos := pos), PartTypes(t, n));
    } else {
      PartDepth(t, 0);
      AcceptedAll(r, PartTypes(t, 0));
    }
  }

  lemma {:induction false} AcceptedAll(r: Reader, types: seq<Type>)
    requires ValidReader(r) && DecodeAll(r, types).Ok?
    ensures var items := DecodeAll(r, types).value.0;
            TypedAll(types, items) && forall i | 0 <= i < |items| :: Acceptable(types[i], items[i])
    decreases DepthAll(types), |types| + 1, 0
  {
    hide Decode, Typed, Acceptable;
    var n := |types| - 1;
    if n >= 0 {
      DecodeSnoc(r, types);
      AcceptedAll(r, types[..n]);
      AcceptedIsAcceptable(r.(pos := DecodeAll(r, types[..n]).value.1), types[n]);
    }
  }

  // ------------------------------------------------------------ what can be encoded

  /** Where the parts of a composite start: after its frame and its count. */
  function PartsAt(enc: Encoding, pos: nat, t: Type): nat {
    var at := BodyAt(enc, pos, t);
    if IsCounted(t) then at + Pad(enc, at, 4) + 4 else at
  }

  /** Where a value ends that starts at `pos`, reckoned from padding and widths. */
  function EndOf(enc: Encoding, pos: nat, t: Type, v: Value): nat
    requires Typed(t, v)
    decreases v
  {
    match t
    case Boolean => pos + Pad(enc, pos, 1) + 1
    case Number(w) => pos + Pad(enc, pos, w) + w
    case WChar => pos + Pad(enc, pos, WCharWidth(enc)) + WCharWidth(enc)
    case Text(_) => pos + Pad(enc, pos, 4) + 4 + |v.octets| + 1
    case _ => EndOfAll(enc, PartsAt(enc, pos, t), PartTypes(t, |v.items|), v.items)
  }

  function EndOfAll(enc: Encoding, pos: nat, types: seq<Type>, items: seq<Value>): nat
    requires TypedAll(types, items)
    decreases items, 0
  {
    var n := |items| - 1;
    if n < 0 then pos else EndOf(enc, EndOfAll(enc, pos, types[..n], items[..n]), types[n], items[n])
  }

  /** No framed part is too long for the four octets its length is written in. */
  predicate FramesFit(enc: Encoding, pos: nat, t: Type, v: Value)
    requires Typed(t, v)
    decreases v, 1
  {
    IsComposite(t) ==>
      && (IsFramed(enc, t) ==> EndOf(enc, pos, t, v) - BodyAt(enc, pos, t) <= U32Max)
      && AllFramesFit(enc, PartsAt(enc, pos, t), PartTypes(t, |v.items|), v.items)
  }

  predicate AllFramesFit(enc: Encoding, pos: nat, types: seq<Type>, items: seq<Value>)
    requires TypedAll(types, items)
    decreases items, 0
  {
    var n := |items| - 1;
    n >= 0 ==> AllFramesFit(enc, pos, types[..n], items[..n])
               && FramesFit(enc, EndOfAll(enc, pos, types[..n], items[..n]), types[n], items[n])
  }

  /** A value can be encoded exactly when it is acceptable and its frames fit; the
      octets are then as many as reckoned, and frames that do not fit are the only
      other failure. */
  lemma {:induction false} EncodesExactlyWhen(enc: Encoding, pos: nat, t: Type, v: Value)
    requires Typed(t, v)
    ensures Encode(enc, pos, t, v).Ok? <==> Acceptable(t, v) && FramesFit(enc, pos, t, v)
    ensures Encode(enc, pos, t, v).Ok? ==> |Encode(enc, pos, t, v).value| == EndOf(enc, pos, t, v) - pos
    ensures Encode(enc, pos, t, v).Err? && Acceptable(t, v) ==> Encode(enc, pos, t, v).error == SizeOverflow
    decreases v, 1
  {
    if IsComposite(t) { EncodesParts(enc, pos, t, v); }
  }

  lemma {:induction false} EncodesParts(enc: Encoding, pos: nat, t: Type, v: Value)
    requires Typed(t, v) && IsComposite(t)
    ensures Encode(enc, pos, t, v).Ok? <==> Acceptable(t, v) && FramesFit(enc, pos, t, v)
    ensures Encode(enc, pos, t, v).Ok? ==> |Encode(enc, pos, t, v).value| == EndOf(enc, pos, t, v) - pos
    ensures Encode(enc, pos, t, v).Err? && Acceptable(t, v) ==> Encode(enc, pos, t, v).error == SizeOverflow
    decreases v, 0
  {
    hide EncodeBody, EncodeAll, Pad, EndOfAll, AllFramesFit, PutNumber, IsFramed, BoundOf, PartsAt;
    TypedParts(t, v);
    var at := BodyAt(enc, pos, t);
    var body := EncodeBody(enc, at, t, v.items);
    assert Encode(enc, pos, t, v) == EncodeParts(enc, pos, t, v.items);
    EncodesBody(enc, pos, t, v.items);
    NumberLength(enc, pos, 4, if body.Ok? then |body.value| else 0);
    assert FramesFit(enc, pos, t, v) <==>
             && (IsFramed(enc, t) ==> EndOf(enc, pos, t, v) - at <= U32Max)
             && AllFramesFit(enc, PartsAt(enc, pos, t), PartTypes(t, |v.items|), v.items);
    assert EndOf(enc, pos, t, v) == EndOfAll(enc, PartsAt(enc, pos, t), PartTypes(t, |v.items|), v.items);
    assert Acceptable(t, v) <==>
             && !Exceeds(|v.items|, BoundOf(t)) && (IsCounted(t) ==> |v.items| <= U32Max)
             && forall i | 0 <= i < |v.items| :: Acceptable(PartTypes(t, |v.items|)[i], v.items[i]);
  }

  lemma NumberLength(enc: Encoding, pos: nat, width: nat, n: nat)
    ensures |PutNumber(enc, pos, width, n)| == Pad(enc, pos, width) + width
  {
    hide Pad;
  }

  lemma {:induction false} EncodesBody(enc: Encoding, pos: nat, t: Type, items: seq<Value>)
    requires IsComposite(t) && TypedAll(PartTypes(t, |items|), items)
    ensures var at, start, types := BodyAt(enc, pos, t), PartsAt(enc, pos, t), PartTypes(t, |items|);
            var body := EncodeBody(enc, at, t, items);
            var acceptable := (IsCounted(t) ==> |items| <= U32Max)
                              && forall i | 0 <= i < |items| :: Acceptable(types[i], items[i]);
            && (body.Ok? <==> acceptable && AllFramesFit(enc, start, types, items))
            && (body.Ok? ==> |body.value| == EndOfAll(enc, start, types, items) - at)
            && (body.Err? && acceptable ==> body.error == SizeOverflow)
    decreases items, 1
  {
    hide EncodeAll, Pad, EndOfAll, AllFramesFit, PutNumber, IsFramed, PartTypes, Acceptable, Typed;
    var at := BodyAt(enc, pos, t);
    NumberLength(enc, at, 4, |items|);
    EncodesAll(enc, PartsAt(enc, pos, t), PartTypes(t, |items|), items);
  }

  lemma {:induction false} EncodesAll(enc: Encoding, pos: nat, types: seq<Type>, items: seq<Value>)
    requires TypedAll(types, items)
    ensures var all := EncodeAll(enc, pos, types, items);
            var acceptable := forall i | 0 <= i < |items| :: Acceptable(types[i], items[i]);
            && (all.Ok? <==> acceptable && AllFramesFit(enc, pos, types, items))
            && (all.Ok? ==> |all.value| == EndOfAll(enc, pos, types, items) - pos)
            && (all.Err? && acceptable ==> all.error == SizeOverflow)
    decreases items, 0
  {
    hide Encode, Typed, Acceptable, EndOf, FramesFit;
    var n := |items| - 1;
    if n >= 0 {
      EncodesAll(enc, pos, types[..n], items[..n]);
      var init := EncodeAll(enc, pos, types[..n], items[..n]);
      if init.Ok? { EncodesExactlyWhen(enc, pos + |init.value|, types[n], items[n]); }
    }
  }
}
