/** Goal ids as `goal_id` metadata: thirty-two hexadecimal digits. */
module GoalIdText {
  import opened Wrappers

  const GoalIdLength := 16

  function HexDigit(nibble: nat): char
    requires nibble < 16
  {
    if nibble <= 9 then '0' + nibble as char else 'a' + (nibble - 10) as char
  }

  function HexValue(digit: char): Option<nat> {
    if '0' <= digit <= '9' then Some((digit - '0') as nat)
    else if 'a' <= digit <= 'f' then Some((digit - 'a') as nat + 10)
    else if 'A' <= digit <= 'F' then Some((digit - 'A') as nat + 10)
    else None
  }

  function Lower(c: char): char {
    if 'A' <= c <= 'Z' then c - 'A' + 'a' else c
  }

  /** `text` writes `id` out, two lower-case digits an octet, high nibble first. */
  ghost predicate Renders(id: seq<Octet>, text: string) {
    && |text| == 2 * |id|
    && (forall k | 0 <= k < |text| :: HexValue(text[k]).Some? && Lower(text[k]) == text[k])
    && (forall k | 0 <= k < |id| :: HexValue(text[2 * k]).value * 16 + HexValue(text[2 * k + 1]).value == id[k])
  }

  /** What reading `text` back must give. */
  ghost predicate Reads(text: string, id: Option<seq<Octet>>) {
    && (id.Some? <==> |text| == 2 * GoalIdLength && forall k | 0 <= k < |text| :: HexValue(text[k]).Some?)
    && (id.Some? ==> |id.value| == GoalIdLength)
    && (id.Some? ==> forall k | 0 <= k < GoalIdLength ::
          id.value[k] == HexValue(text[2 * k]).value * 16 + HexValue(text[2 * k + 1]).value)
  }

  lemma DigitValue(nibble: nat)
    requires nibble < 16
    ensures HexValue(HexDigit(nibble)) == Some(nibble) && Lower(HexDigit(nibble)) == HexDigit(nibble)
  {}

  lemma RendersNext(id: seq<Octet>, text: string, octet: Octet)
    requires Renders(id, text)
    ensures Renders(id + [octet], text + [HexDigit(octet / 16), HexDigit(octet % 16)])
  {
    hide HexDigit, HexValue, Lower;
    DigitValue(octet / 16);
    DigitValue(octet % 16);
    var more := text + [HexDigit(octet / 16), HexDigit(octet % 16)];
    assert forall k | 0 <= k < |text| :: more[k] == text[k];
    assert more[2 * |id|] == HexDigit(octet / 16) && more[2 * |id| + 1] == HexDigit(octet % 16);
  }

  method RenderGoalId(id: seq<Octet>) returns (text: string)
    ensures Renders(id, text)
  {
    hide Renders, HexDigit;
    text := "";
    RendersNone();
    for k := 0 to |id|
      invariant Renders(id[..k], text)
    {
      RendersNext(id[..k], text, id[k]);
      text := text + [HexDigit(id[k] / 16), HexDigit(id[k] % 16)];
      assert id[..k + 1] == id[..k] + [id[k]];
    }
    assert id[..|id|] == id;
  }

  lemma RendersNone()
    ensures Renders([], "")
  {}

  method ParseGoalId(text: string) returns (id: Option<seq<Octet>>)
    ensures Reads(text, id)
  {
    if |text| != GoalIdLength * 2 { return None; }
    var octets: seq<Octet> := [];
    for k := 0 to GoalIdLength
      invariant |octets| == k
      invariant forall j | 0 <= j < 2 * k :: HexValue(text[j]).Some?
      invariant forall j | 0 <= j < k :: octets[j] == HexValue(text[2 * j]).value * 16 + HexValue(text[2 * j + 1]).value
    {
      var high := HexValue(text[k * 2]);
      if high.None? { return None; }
      var low := HexValue(text[k * 2 + 1]);
      if low.None? { return None; }
      octets := octets + [high.value * 16 + low.value];
    }
    return Some(octets);
  }

  /** A digit is its value, up to case. */
  lemma SameValueSameDigit(c: char, d: char)
    requires HexValue(c).Some? && HexValue(c) == HexValue(d)
    ensures Lower(c) == Lower(d)
  {}

  /** Every goal id survives being written and read. */
  lemma GoalIdRoundTrip(id: seq<Octet>, text: string, back: Option<seq<Octet>>)
    requires |id| == GoalIdLength && Renders(id, text) && Reads(text, back)
    ensures back == Some(id)
  {
    assert back.value == id;
  }

  /** Text that reads as a goal id is what that id is written as, up to case; so
      no two ids share a spelling and each has exactly one in lower case. */
  lemma TextRoundTrip(text: string, id: seq<Octet>, back: string)
    requires Reads(text, Some(id)) && Renders(id, back)
    ensures |back| == |text| && forall k | 0 <= k < |text| :: back[k] == Lower(text[k])
  {
    forall k | 0 <= k < |text| ensures back[k] == Lower(text[k]) {
      var n := k / 2;
      assert id[n] == HexValue(text[2 * n]).value * 16 + HexValue(text[2 * n + 1]).value;
      assert id[n] == HexValue(back[2 * n]).value * 16 + HexValue(back[2 * n + 1]).value;
      NibblesUnique(HexValue(text[2 * n]).value, HexValue(text[2 * n + 1]).value,
                    HexValue(back[2 * n]).value, HexValue(back[2 * n + 1]).value);
      assert k == 2 * n || k == 2 * n + 1;
      SameValueSameDigit(text[k], back[k]);
    }
  }

  lemma NibblesUnique(a: nat, b: nat, c: nat, d: nat)
    requires b < 16 && d < 16 && a * 16 + b == c * 16 + d
    ensures a == c && b == d
  {}
}
