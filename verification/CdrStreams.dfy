/** The writer and the reader that work through a message step by step. */
module CdrStreams {
  import opened Wrappers
  import opened Align
  import opened Cdr
  import opened CdrRoundTrip

  // ------------------------------------------------------------------ the sink

  /** Where a writer puts its octets: kept, or only counted. */
  datatype Sink = Buffer(octets: seq<Octet>) | Counter(count: nat)

  function Length(s: Sink): nat {
    if s.Buffer? then |s.octets| else s.count
  }

  function Push(s: Sink, more: seq<Octet>): Sink {
    match s
    case Buffer(octets) => Buffer(octets + more)
    case Counter(count) => Counter(count + |more|)
  }

  /** Overwrite octets already emitted; there is nothing to overwrite in a count. */
  function Patch(s: Sink, at: nat, octets: seq<Octet>): Sink
    requires at + |octets| <= Length(s)
  {
    match s
    case Buffer(all) => Buffer(all[..at] + octets + all[at + |octets|..])
    case Counter(_) => s
  }

  lemma PushTwice(s: Sink, a: seq<Octet>, b: seq<Octet>)
    ensures Push(Push(s, a), b) == Push(s, a + b) && Length(Push(s, a)) == Length(s) + |a|
  {
    assert s.Buffer? ==> s.octets + a + b == s.octets + (a + b);
  }

  lemma PushNothing(s: Sink)
    ensures Push(s, []) == s
  {
    assert s.Buffer? ==> s.octets + [] == s.octets;
  }

  /** Filling in, afterwards, octets that were left blank. */
  lemma PatchBlank(s: Sink, pad: seq<Octet>, blank: seq<Octet>, body: seq<Octet>, octets: seq<Octet>)
    requires |blank| == |octets|
    ensures Patch(Push(Push(Push(s, pad), blank), body), Length(s) + |pad|, octets) == Push(s, pad + octets + body)
  {
    if s.Buffer? {
      var all, at := s.octets + pad + blank + body, |s.octets| + |pad|;
      assert all[..at] == s.octets + pad;
      assert all[at + |octets|..] == body;
      assert s.octets + pad + octets + body == s.octets + (pad + octets + body);
    }
  }

  // ------------------------------------------------- errors stop at the first

  lemma {:induction false} EncodePrefixFails(enc: Encoding, pos: nat, types: seq<Type>, items: seq<Value>, k: nat)
    requires TypedAll(types, items) && k <= |items| && EncodeAll(enc, pos, types[..k], items[..k]).Err?
    ensures EncodeAll(enc, pos, types, items) == EncodeAll(enc, pos, types[..k], items[..k])
    decreases |items|
  {
    hide Encode, Typed;
    var n := |items| - 1;
    if k == |items| {
      assert types[..k] == types && items[..k] == items;
    } else {
      assert types[..n][..k] == types[..k] && items[..n][..k] == items[..k];
      EncodePrefixFails(enc, pos, types[..n], items[..n], k);
    }
  }

  lemma {:induction false} DecodePrefixFails(r: Reader, types: seq<Type>, k: nat)
    requires ValidReader(r) && k <= |types| && DecodeAll(r, types[..k]).Err?
    ensures DecodeAll(r, types) == DecodeAll(r, types[..k])
    decreases |types|
  {
    hide Decode;
    var n := |types| - 1;
    if k == |types| {
      assert types[..k] == types;
    } else {
      assert types[..n][..k] == types[..k];
      DecodePrefixFails(r, types[..n], k);
      DecodeSnoc(r, types);
    }
  }

  lemma DecodeNext(r: Reader, types: seq<Type>, k: nat)
    requires ValidReader(r) && k < |types| && DecodeAll(r, types[..k]).Ok?
    ensures var init := DecodeAll(r, types[..k]).value;
            var last := Decode(r.(pos := init.1), types[k]);
            DecodeAll(r, types[..k + 1]) == if last.Err? then Err(last.error)
              else Ok((init.0 + [last.value.0], last.value.1))
  {
    hide Decode;
    assert types[..k + 1][..k] == types[..k];
    DecodeSnoc(r, types[..k + 1]);
  }

  // ---------------------------------------------------------------- the writer

  /** Writing succeeds exactly when the encoding exists, and then has appended it. */
  ghost predicate Wrote(before: Sink, after: Sink, encoded: Encoded, failed: Option<CdrError>) {
    match encoded
    case Ok(octets) => failed.None? && after == Push(before, octets)
    case Err(error) => failed == Some(error)
  }

  class CdrWriter {
    const enc: Encoding
    const origin: nat
    var sink: Sink

    ghost predicate Valid()
      reads this
    {
      origin <= Length(sink)
    }

    /** Stream position: octets written since the alignment origin. */
    function Position(): nat
      reads this
      requires Valid()
    {
      Length(sink) - origin
    }

    /** A writer that starts behind a header, or with none. */
    constructor (enc: Encoding, sink: Sink, header: seq<Octet>)
      ensures Valid() && this.enc == enc && Position() == 0 && this.sink == Push(sink, header)
    {
      this.enc := enc;
      this.sink := Push(sink, header);
      this.origin := Length(sink) + |header|;
    }

    method Emit(octets: seq<Octet>)
      requires Valid()
      modifies this`sink
      ensures Valid() && sink == Push(old(sink), octets) && Position() == old(Position()) + |octets|
    {
      sink := Push(sink, octets);
    }

    method AlignTo(natural: nat)
      requires Valid()
      modifies this`sink
      ensures Valid() && sink == Push(old(sink), Zeros(Pad(enc, old(Position()), natural)))
      ensures Position() == old(Position()) + Pad(enc, old(Position()), natural)
    {
      var pad := PaddingTo(Position(), AlignFor(enc, natural));
      PushNothing(sink);
      if pad > 0 { Emit(Zeros(pad)); }
    }

    method WriteNumber(width: nat, n: nat)
      requires Valid()
      modifies this`sink
      ensures Valid() && sink == Push(old(sink), PutNumber(enc, old(Position()), width, n))
      ensures Position() == old(Position()) + |PutNumber(enc, old(Position()), width, n)|
    {
      ghost var pad := Zeros(Pad(enc, Position(), width));
      AlignTo(width);
      Emit(NumberOctets(enc, width, n));
      PushTwice(old(sink), pad, NumberOctets(enc, width, n));
    }

    method WriteText(bound: Option<nat>, octets: seq<Octet>) returns (failed: Option<CdrError>)
      requires Valid() && IsUtf8(octets)
      modifies this`sink
      ensures Valid() && Wrote(old(sink), sink, Encode(enc, old(Position()), Text(bound), Str(octets)), failed)
    {
      hide IsUtf8, PutNumber;
      if Exceeds(|octets|, bound) { return Some(BoundExceeded); }
      if 0 in octets { return Some(InteriorNul); }
      if |octets| + 1 > U32Max { return Some(SequenceTooLong); }
      ghost var count := PutNumber(enc, Position(), 4, |octets| + 1);
      WriteNumber(4, |octets| + 1);
      Emit(octets);
      Emit([0]);
      PushTwice(old(sink), count, octets);
      PushTwice(old(sink), count + octets, [0]);
      return None;
    }

    method Serialize(t: Type, v: Value) returns (failed: Option<CdrError>)
      requires Valid() && Typed(t, v)
      modifies this`sink
      ensures Valid() && Wrote(old(sink), sink, Encode(enc, old(Position()), t, v), failed)
      decreases v, 3
    {
      hide PutNumber, EncodeParts, IsUtf8;
      match t {
        case Boolean => WriteNumber(1, v.n); return None;
        case Number(w) => WriteNumber(w, v.n); return None;
        case WChar => WriteNumber(WCharWidth(enc), v.n); return None;
        case Text(bound) => failed := WriteText(bound, v.octets);
        case _ => failed := SerializeParts(t, v.items);
      }
    }

    /** Reserve a slot for the length, write, then fill the slot in. */
    method SerializeParts(t: Type, items: seq<Value>) returns (failed: Option<CdrError>)
      requires Valid() && IsComposite(t) && TypedAll(PartTypes(t, |items|), items)
      modifies this`sink
      ensures Valid() && Wrote(old(sink), sink, EncodeParts(enc, old(Position()), t, items), failed)
      decreases items, 2
    {
      hide TypedAll, EncodeBody, Pad, NumberOctets, PartTypes, BoundOf, IsFramed, Exceeds;
      if Exceeds(|items|, BoundOf(t)) { return Some(BoundExceeded); }
      if !IsFramed(enc, t) {
        failed := SerializeBody(t, items);
        return;
      }
      ghost var pad := Zeros(Pad(enc, Position(), 4));
      AlignTo(4);
      var slot := Length(sink);
      Emit(Zeros(4));
      var start := Length(sink);
      failed := SerializeBody(t, items);
      if failed.Some? { return; }
      ghost var body := EncodeBody(enc, start - origin, t, items).value;
      var length := Length(sink) - start;
      PushTwice(Push(Push(old(sink), pad), Zeros(4)), body, []);
      assert length == |body|;
      if length > U32Max { return Some(SizeOverflow); }
      PatchBlank(old(sink), pad, Zeros(4), body, NumberOctets(enc, 4, length));
      sink := Patch(sink, slot, NumberOctets(enc, 4, length));
    }

    method SerializeBody(t: Type, items: seq<Value>) returns (failed: Option<CdrError>)
      requires Valid() && IsComposite(t) && TypedAll(PartTypes(t, |items|), items)
      modifies this`sink
      ensures Valid() && Wrote(old(sink), sink, EncodeBody(enc, old(Position()), t, items), failed)
      decreases items, 1
    {
      hide PutNumber, EncodeAll, Encode, Typed;
      ghost var pos, count := Position(), CountOctets(enc, Position(), t, |items|);
      PushNothing(sink);
      if IsCounted(t) {
        if |items| > U32Max { return Some(SequenceTooLong); }
        WriteNumber(4, |items|);
      }
      var types := PartTypes(t, |items|);
      ghost var before := sink;
      EncodeNone(enc, pos + |count|, types, items);
      for k := 0 to |items|
        invariant Valid()
        invariant EncodeAll(enc, pos + |count|, types[..k], items[..k]).Ok?
        invariant sink == Push(before, EncodeAll(enc, pos + |count|, types[..k], items[..k]).value)
        invariant Position() == pos + |count| + |EncodeAll(enc, pos + |count|, types[..k], items[..k]).value|
      {
        ghost var init := EncodeAll(enc, pos + |count|, types[..k], items[..k]).value;
        EncodeNext(enc, pos + |count|, types, items, k);
        failed := Serialize(types[k], items[k]);
        if failed.Some? {
          EncodePrefixFails(enc, pos + |count|, types, items, k + 1);
          return;
        }
        PushTwice(before, init, Encode(enc, pos + |count| + |init|, types[k], items[k]).value);
      }
      assert types[..|items|] == types && items[..|items|] == items;
      PushTwice(old(sink), count, EncodeAll(enc, pos + |count|, types, items).value);
      return None;
    }
  }

  lemma EncodeNone(enc: Encoding, pos: nat, types: seq<Type>, items: seq<Value>)
    requires TypedAll(types, items)
    ensures EncodeAll(enc, pos, types[..0], items[..0]) == Ok([])
  {}

  // ---------------------------------------------------------------- the reader

  /** Reading returns what decoding gives and stops where it does. */
  ghost predicate Took<T>(decoded: Decoded<T>, result: Result<T, CdrError>, pos: nat) {
    match decoded
    case Ok(d) => result == Ok(d.0) && pos == d.1
    case Err(error) => result == Err(error)
  }

  class CdrReader {
    const data: seq<Octet>
    const origin: nat
    const enc: Encoding
    var pos: nat
    var end: nat

    ghost predicate Valid()
      reads this
    {
      ValidReader(Cursor())
    }

    ghost function Cursor(): Reader
      reads this
    {
      Reader(data, pos, origin, end, enc)
    }

    constructor (data: seq<Octet>, origin: nat, end: nat, enc: Encoding)
      requires origin <= end <= |data|
      ensures Valid() && Cursor() == Reader(data, origin, origin, end, enc)
    {
      this.data, this.origin, this.enc, this.end := data, origin, enc, end;
      pos := origin;
    }

    /** Skip padding, then take the octets of one number. */
    method ReadNumber(width: nat) returns (r: Result<nat, CdrError>)
      requires Valid()
      modifies this`pos
      ensures Valid() && Took(GetNumber(old(Cursor()), width), r, pos)
    {
      hide FromOctets, PaddingTo;
      var pad := PaddingTo(pos - origin, AlignFor(enc, width));
      if pad > end - pos { return Err(Truncated); }
      pos := pos + pad;
      if width > end - pos { return Err(Truncated); }
      r := Ok(FromOctets(enc, data[pos..pos + width]));
      pos := pos + width;
    }

    method ReadCount(partMin: nat) returns (r: Result<nat, CdrError>)
      requires Valid()
      modifies this`pos
      ensures Valid() && Took(GetCount(old(Cursor()), partMin), r, pos)
    {
      hide GetNumber, Needed;
      r := ReadNumber(4);
      if r.Ok? && Needed(r.value, partMin) > end - pos { return Err(LengthOverflow); }
    }

    method ReadText(bound: Option<nat>) returns (r: Result<Value, CdrError>)
      requires Valid()
      modifies this`pos
      ensures Valid() && Took(DecodeText(old(Cursor()), bound), r, pos)
    {
      hide GetCount, IsUtf8;
      var count := ReadCount(1);
      if count.Err? { return Err(count.error); }
      ghost var before := pos;
      if count.value == 0 { return Err(MissingNulTerminator); }
      var raw := data[pos..pos + count.value];
      pos := pos + count.value;
      var body := raw[..|raw| - 1];
      assert body == data[before..before + count.value - 1] && raw[|raw| - 1] == data[before + count.value - 1];
      if raw[|raw| - 1] != 0 { return Err(MissingNulTerminator); }
      if 0 in body { return Err(InteriorNul); }
      if !IsUtf8(body) { return Err(InvalidUtf8); }
      if Exceeds(|body|, bound) { return Err(BoundExceeded); }
      return Ok(Str(body));
    }

    method Deserialize(t: Type) returns (r: Result<Value, CdrError>)
      requires Valid()
      modifies this`pos, this`end
      ensures Valid() && end == old(end) && Took(Decode(old(Cursor()), t), r, pos)
      decreases Depth(t), 0, 3
    {
      hide GetNumber, DecodeText, DecodeParts;
      var n: Result<nat, CdrError>;
      match t {
        case Boolean =>
          n := ReadNumber(1);
          r := if n.Err? then Err(n.error) else if n.value > 1 then Err(InvalidBoolean) else Ok(Num(n.value));
        case Number(w) =>
          n := ReadNumber(w);
          r := if n.Err? then Err(n.error) else Ok(Num(n.value));
        case WChar =>
          n := ReadNumber(WCharWidth(enc));
          r := if n.Err? then Err(n.error) else if n.value > 0xffff then Err(InvalidUtf16) else Ok(Num(n.value));
        case Text(bound) =>
          r := ReadText(bound);
        case _ =>
          var parts := DeserializeParts(t);
          r := if parts.Err? then Err(parts.error) else Ok(Items(parts.value));
      }
    }

    /** Clamp the scope to the frame while its parts are read, then move to the
        frame's end even if they stopped short of it. */
    method DeserializeParts(t: Type) returns (r: Result<seq<Value>, CdrError>)
      requires Valid() && IsComposite(t)
      modifies this`pos, this`end
      ensures Valid() && end == old(end) && Took(DecodeParts(old(Cursor()), t), r, pos)
      decreases Depth(t), 0, 2
    {
      hide DecodeBody, GetNumber;
      if !IsFramed(enc, t) {
        r := DeserializeBody(t);
        return;
      }
      var length := ReadNumber(4);
      if length.Err? { return Err(length.error); }
      if length.value > end - pos { return Err(DelimiterOverrun); }
      var outer, scope := end, pos + length.value;
      end := scope;
      r := DeserializeBody(t);
      end := outer;
      if r.Ok? { pos := scope; }
    }

    method DeserializeBody(t: Type) returns (r: Result<seq<Value>, CdrError>)
      requires Valid() && IsComposite(t)
      modifies this`pos, this`end
      ensures Valid() && end == old(end) && Took(DecodeBody(old(Cursor()), t), r, pos)
      decreases Depth(t), 0, 1
    {
      hide DecodeAll, GetCount, PartMin;
      if !IsCounted(t) {
        PartDepth(t, 0);
        r := DeserializeAll(PartTypes(t, 0));
        return;
      }
      var count := ReadCount(PartMin(enc, t));
      if count.Err? { return Err(count.error); }
      PartDepth(t, count.value);
      if t.Sequence? && Exceeds(count.value, t.bound) { return Err(BoundExceeded); }
      r := DeserializeAll(PartTypes(t, count.value));
      if r.Ok? && t.WText? && Exceeds(count.value, t.bound) { return Err(BoundExceeded); }
    }

    method DeserializeAll(types: seq<Type>) returns (r: Result<seq<Value>, CdrError>)
      requires Valid()
      modifies this`pos, this`end
      ensures Valid() && end == old(end) && Took(DecodeAll(old(Cursor()), types), r, pos)
      decreases DepthAll(types), |types| + 1, 0
    {
      hide Decode;
      ghost var start := Cursor();
      var items := [];
      for k := 0 to |types|
        invariant Valid() && end == old(end)
        invariant DecodeAll(start, types[..k]) == Ok((items, pos))
      {
        DecodeNext(start, types, k);
        assert start.(pos := pos) == Cursor();
        var item := Deserialize(types[k]);
        if item.Err? {
          DecodePrefixFails(start, types, k + 1);
          return Err(item.error);
        }
        items := items + [item.value];
      }
      assert types[..|types|] == types;
      return Ok(items);
    }
  }
}
