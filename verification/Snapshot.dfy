/** The committed protocol snapshots, and the rule that a release only appends. */
module Snapshot {
  import opened Wrappers

  /** A message family: its header line and the lines under it. */
  datatype Section = Section(name: string, lines: seq<string>)

  datatype PrefixBreak =
    | SectionMissing(section: string)
    | SectionShrank(section: string)
    | LineMoved(section: string, index: nat, frozen: string, live: string)
    | SectionNew(section: string)

  // ------------------------------------------------------------- text to lines

  /** The characters with the Unicode property White_Space. */
  predicate IsWhitespace(c: char) {
    || '\U{0009}' <= c <= '\U{000d}' || c == ' ' || c == '\U{0085}' || c == '\U{00a0}' || c == '\U{1680}'
    || '\U{2000}' <= c <= '\U{200a}' || c == '\U{2028}' || c == '\U{2029}' || c == '\U{202f}'
    || c == '\U{205f}' || c == '\U{3000}'
  }

  function TrimEnd(line: string): string {
    if line == "" || !IsWhitespace(line[|line| - 1]) then line else TrimEnd(line[..|line| - 1])
  }

  /** `text` up to the first `stop`, or all of it. */
  function UpTo(text: string, stop: char): string {
    if text == "" || text[0] == stop then "" else [text[0]] + UpTo(text[1..], stop)
  }

  lemma {:induction false} UpToShorter(text: string, stop: char)
    ensures UpTo(text, stop) <= text && stop !in UpTo(text, stop)
    ensures |UpTo(text, stop)| < |text| ==> text[|UpTo(text, stop)|] == stop
  {
    if text != "" && text[0] != stop { UpToShorter(text[1..], stop); }
  }

  /** The lines of a text; a final newline ends the last line and starts none. */
  function Lines(text: string): seq<string>
    decreases |text|
  {
    UpToShorter(text, '\n');
    var line := UpTo(text, '\n');
    if text == "" then [] else if line == text then [line] else [line] + Lines(text[|line| + 1..])
  }

  function TrimStart(text: string, c: char): string {
    if text == "" || text[0] != c then text else TrimStart(text[1..], c)
  }

  predicate IsHeader(line: string) {
    line != "" && line[0] == '['
  }

  function HeaderName(line: string): string {
    TrimStart(UpTo(line, ']'), '[')
  }

  /** The lines that count: trimmed, without blank lines and comments. */
  function Counted(lines: seq<string>): seq<string> {
    if lines == [] then []
    else
      var line := TrimEnd(lines[|lines| - 1]);
      Counted(lines[..|lines| - 1]) + if line == "" || line[0] == '#' then [] else [line]
  }

  // ---------------------------------------------------------- lines to sections

  function Add(sections: seq<Section>, line: string): seq<Section> {
    var n := |sections|;
    if IsHeader(line) then sections + [Section(HeaderName(line), [line])]
    else if n == 0 then []
    else sections[n - 1 := sections[n - 1].(lines := sections[n - 1].lines + [line])]
  }

  function SectionsOf(counted: seq<string>): seq<Section> {
    var n := |counted|;
    if n == 0 then [] else Add(SectionsOf(counted[..n - 1]), counted[n - 1])
  }

  ghost predicate WellFormed(s: Section) {
    && s.lines != [] && IsHeader(s.lines[0]) && s.name == HeaderName(s.lines[0])
    && forall k | 0 < k < |s.lines| :: !IsHeader(s.lines[k])
  }

  ghost function Content(sections: seq<Section>): seq<string> {
    if sections == [] then [] else Content(sections[..|sections| - 1]) + sections[|sections| - 1].lines
  }

  ghost function FromHeader(lines: seq<string>): seq<string> {
    if lines == [] || IsHeader(lines[0]) then lines else FromHeader(lines[1..])
  }

  /** What it is to be the sections of some lines, whatever the way they were
      found: every line from the first header on, in order, cut at the headers. */
  ghost predicate Sectioning(counted: seq<string>, sections: seq<Section>) {
    Content(sections) == FromHeader(counted) && forall s | s in sections :: WellFormed(s)
  }

  lemma {:induction false} FromHeaderSnoc(lines: seq<string>, line: string)
    ensures FromHeader(lines + [line]) == if FromHeader(lines) == [] && !IsHeader(line) then []
            else FromHeader(lines) + [line]
  {
    if lines == [] {
      assert lines + [line] == [line];
    } else if !IsHeader(lines[0]) {
      assert (lines + [line])[1..] == lines[1..] + [line];
      FromHeaderSnoc(lines[1..], line);
    }
  }

  lemma AddSections(sections: seq<Section>, line: string)
    requires forall s | s in sections :: WellFormed(s)
    ensures forall s | s in Add(sections, line) :: WellFormed(s)
    ensures sections == [] && !IsHeader(line) ==> Add(sections, line) == []
    ensures sections != [] || IsHeader(line) ==> Content(Add(sections, line)) == Content(sections) + [line]
  {
    var n, more := |sections|, Add(sections, line);
    if IsHeader(line) {
      assert more[..n] == sections;
    } else if n > 0 {
      assert more[..n - 1] == sections[..n - 1];
      assert sections[n - 1] in sections;
      assert Content(more) == Content(sections[..n - 1]) + (sections[n - 1].lines + [line]);
    }
  }

  lemma {:induction false} SectionsAreSectioning(counted: seq<string>)
    ensures Sectioning(counted, SectionsOf(counted))
    ensures SectionsOf(counted) == [] <==> FromHeader(counted) == []
  {
    if counted != [] {
      var n := |counted|;
      var init, line := counted[..n - 1], counted[n - 1];
      assert counted == init + [line];
      SectionsAreSectioning(init);
      AddSections(SectionsOf(init), line);
      FromHeaderSnoc(init, line);
    }
  }

  /** No two ways of cutting the same lines agree with the rule. */
  lemma {:induction false} SectioningUnique(counted: seq<string>, a: seq<Section>, b: seq<Section>)
    requires Sectioning(counted, a) && Sectioning(counted, b)
    ensures a == b
  {
    SameContent(a, b);
  }

  /** Where the last header is does not depend on how the lines are cut. */
  lemma LastHeader(all: seq<string>, p: seq<string>, x: Section, q: seq<string>, y: Section)
    requires all == p + x.lines == q + y.lines && WellFormed(x) && WellFormed(y)
    ensures p == q && x == y
  {
    var m, n := |p|, |q|;
    assert all[m] == x.lines[0] && all[n] == y.lines[0];
    assert forall k | m < k < |all| :: !IsHeader(all[k]) by {
      assert forall k | m < k < |all| :: all[k] == x.lines[k - m];
    }
    assert forall k | n < k < |all| :: !IsHeader(all[k]) by {
      assert forall k | n < k < |all| :: all[k] == y.lines[k - n];
    }
    assert m == n;
    assert p == all[..m] && q == all[..n] && x.lines == all[m..] && y.lines == all[n..];
  }

  lemma {:induction false} SameContent(a: seq<Section>, b: seq<Section>)
    requires Content(a) == Content(b)
    requires (forall s | s in a :: WellFormed(s)) && (forall s | s in b :: WellFormed(s))
    ensures a == b
  {
    hide WellFormed;
    if a != [] && b != [] {
      var m, n := |a| - 1, |b| - 1;
      assert a[m] in a && b[n] in b;
      LastHeader(Content(a), Content(a[..m]), a[m], Content(b[..n]), b[n]);
      SameContent(a[..m], b[..n]);
      assert a == a[..m] + [a[m]] && b == b[..n] + [b[n]];
    } else {
      NoContent(a);
      NoContent(b);
    }
  }

  lemma NoContent(a: seq<Section>)
    requires forall s | s in a :: WellFormed(s)
    ensures Content(a) == [] ==> a == []
  {
    if a != [] { assert a[|a| - 1] in a; }
  }

  method Sections(text: string) returns (sections: seq<Section>)
    ensures Sectioning(Counted(Lines(text)), sections)
    ensures sections == SectionsOf(Counted(Lines(text)))
  {
    var lines := Lines(text);
    sections := [];
    for k := 0 to |lines|
      invariant sections == SectionsOf(Counted(lines[..k]))
    {
      var line := TrimEnd(lines[k]);
      assert lines[..k + 1][..k] == lines[..k];
      CountedStep(Counted(lines[..k]), line);
      if line == "" || line[0] == '#' {
        assert Counted(lines[..k + 1]) == Counted(lines[..k]);
        continue;
      }
      if line[0] == '[' {
        sections := sections + [Section(HeaderName(line), [line])];
      } else if |sections| > 0 {
        var last := |sections| - 1;
        sections := sections[last := sections[last].(lines := sections[last].lines + [line])];
      }
    }
    assert lines[..|lines|] == lines;
    SectionsAreSectioning(Counted(lines));
  }

  lemma CountedStep(counted: seq<string>, line: string)
    ensures SectionsOf(counted + [line]) == Add(SectionsOf(counted), line)
  {
    assert (counted + [line])[..|counted|] == counted;
  }

  // ------------------------------------------------------ the append-only check

  ghost predicate Named(sections: seq<Section>, name: string) {
    exists k :: 0 <= k < |sections| && sections[k].name == name
  }

  ghost predicate FirstNamed(sections: seq<Section>, name: string, j: int) {
    0 <= j < |sections| && sections[j].name == name && forall k | 0 <= k < j :: sections[k].name != name
  }

  /** The first live section of this name still starts with the frozen lines. */
  ghost predicate Keeps(f: Section, live: seq<Section>) {
    exists j :: FirstNamed(live, f.name, j) && f.lines <= live[j].lines
  }

  /** `live` is an append-only successor of `frozen`. */
  ghost predicate Passes(frozen: seq<Section>, live: seq<Section>) {
    && (forall f | f in frozen :: Keeps(f, live))
    && (forall l | l in live :: Named(frozen, l.name))
  }

  /** What is wrong with frozen section `i`, the first one that is not kept. */
  ghost predicate Broken(frozen: seq<Section>, live: seq<Section>, i: int, b: PrefixBreak) {
    && 0 <= i < |frozen| && (forall k | 0 <= k < i :: Keeps(frozen[k], live))
    && b.section == frozen[i].name
    && match b
       case SectionMissing(name) => !Named(live, name)
       case SectionShrank(name) => exists j :: FirstNamed(live, name, j) && |live[j].lines| < |frozen[i].lines|
       case LineMoved(name, index, was, now) => exists j ::
           FirstNamed(live, name, j) && Moved(frozen[i].lines, live[j].lines, index, was, now)
       case SectionNew(_) => false
  }

  ghost predicate Moved(frozen: seq<string>, live: seq<string>, index: nat, was: string, now: string) {
    && |frozen| <= |live| && index < |frozen|
    && frozen[..index] == live[..index]
    && was == frozen[index] && now == live[index] && was != now
  }

  ghost predicate New(frozen: seq<Section>, live: seq<Section>, j: int, name: string) {
    && 0 <= j < |live| && name == live[j].name && !Named(frozen, name)
    && (forall f | f in frozen :: Keeps(f, live))
    && forall k | 0 <= k < j :: Named(frozen, live[k].name)
  }

  ghost predicate BreakSpec(frozen: seq<Section>, live: seq<Section>, r: Option<PrefixBreak>) {
    match r
    case None => Passes(frozen, live)
    case Some(SectionNew(name)) => exists j :: New(frozen, live, j, name)
    case Some(b) => exists i :: Broken(frozen, live, i, b)
  }

  method FindSection(sections: seq<Section>, name: string) returns (r: Option<nat>)
    ensures r.Some? ==> FirstNamed(sections, name, r.value)
    ensures r.None? ==> !Named(sections, name)
  {
    for k := 0 to |sections|
      invariant forall i | 0 <= i < k :: sections[i].name != name
    {
      if sections[k].name == name { return Some(k); }
    }
    return None;
  }

  method FirstPrefixBreak(frozen: seq<Section>, live: seq<Section>) returns (r: Option<PrefixBreak>)
    ensures BreakSpec(frozen, live, r)
  {
    hide Keeps, Named, FirstNamed;
    for i := 0 to |frozen|
      invariant forall k | 0 <= k < i :: Keeps(frozen[k], live)
    {
      var name, lines := frozen[i].name, frozen[i].lines;
      var found := FindSection(live, name);
      if found.None? {
        assert Broken(frozen, live, i, SectionMissing(name));
        return Some(SectionMissing(name));
      }
      FirstInRange(live, name, found.value);
      var liveLines := live[found.value].lines;
      if |liveLines| < |lines| {
        assert Broken(frozen, live, i, SectionShrank(name));
        return Some(SectionShrank(name));
      }
      for index := 0 to |lines|
        invariant lines[..index] == liveLines[..index]
      {
        if liveLines[index] != lines[index] {
          var moved := LineMoved(name, index, lines[index], liveLines[index]);
          assert Moved(lines, liveLines, index, lines[index], liveLines[index]);
          assert Broken(frozen, live, i, moved);
          return Some(moved);
        }
      }
      KeptAt(frozen[i], live, found.value);
    }
    for j := 0 to |live|
      invariant forall k | 0 <= k < j :: Named(frozen, live[k].name)
    {
      var found := FindSection(frozen, live[j].name);
      if found.None? {
        assert New(frozen, live, j, live[j].name);
        return Some(SectionNew(live[j].name));
      }
      FirstInRange(frozen, live[j].name, found.value);
    }
    return None;
  }

  lemma FirstInRange(sections: seq<Section>, name: string, j: nat)
    requires FirstNamed(sections, name, j)
    ensures j < |sections| && sections[j].name == name && Named(sections, name)
  {}

  lemma KeptAt(f: Section, live: seq<Section>, j: nat)
    requires FirstNamed(live, f.name, j) && |f.lines| <= |live[j].lines|
    requires f.lines[..|f.lines|] == live[j].lines[..|f.lines|]
    ensures Keeps(f, live)
  {
    assert f.lines <= live[j].lines;
  }

  /** A break is reported exactly when the check does not pass. */
  lemma BreakExactlyWhen(frozen: seq<Section>, live: seq<Section>, r: Option<PrefixBreak>)
    requires BreakSpec(frozen, live, r)
    ensures r.None? <==> Passes(frozen, live)
  {
    match r
    case None =>
    case Some(SectionNew(name)) =>
      var j :| New(frozen, live, j, name);
      assert live[j] in live;
    case Some(b) =>
      var i :| Broken(frozen, live, i, b);
      assert frozen[i] in frozen;
      BrokenNotKept(frozen, live, i, b);
  }

  lemma BrokenNotKept(frozen: seq<Section>, live: seq<Section>, i: int, b: PrefixBreak)
    requires Broken(frozen, live, i, b)
    ensures !Keeps(frozen[i], live)
  {}

  // ----------------------------------------------------------------- its meaning

  ghost predicate UniqueNames(s: seq<Section>) {
    forall i, j | 0 <= i < j < |s| :: s[i].name != s[j].name
  }

  lemma {:induction false} NamedHasFirst(s: seq<Section>, name: string, k: nat)
    requires k < |s| && s[k].name == name
    ensures exists j :: FirstNamed(s, name, j)
  {
    if forall i | 0 <= i < k :: s[i].name != name {
      assert FirstNamed(s, name, k);
    } else {
      var i :| 0 <= i < k && s[i].name == name;
      NamedHasFirst(s, name, i);
    }
  }

  /** With section names unique on both sides, passing is having the same names
      and, name by name, the frozen lines first. */
  lemma PassesExactlyWhen(frozen: seq<Section>, live: seq<Section>)
    requires UniqueNames(frozen) && UniqueNames(live)
    ensures Passes(frozen, live) <==>
            && (forall name :: Named(frozen, name) <==> Named(live, name))
            && (forall f, l | f in frozen && l in live && f.name == l.name :: f.lines <= l.lines)
  {
    if Passes(frozen, live) {
      forall name ensures Named(frozen, name) <==> Named(live, name) {
        if Named(frozen, name) { var k :| 0 <= k < |frozen| && frozen[k].name == name; assert frozen[k] in frozen; }
        if Named(live, name) { var k :| 0 <= k < |live| && live[k].name == name; assert live[k] in live; }
      }
    } else if forall name :: Named(frozen, name) <==> Named(live, name) {
      forall f | f in frozen && (forall l | l in live && l.name == f.name :: f.lines <= l.lines)
        ensures Keeps(f, live)
      {
        assert Named(frozen, f.name);
        var k :| 0 <= k < |live| && live[k].name == f.name;
        NamedHasFirst(live, f.name, k);
      }
      forall l | l in live ensures Named(frozen, l.name) { assert Named(live, l.name); }
    }
  }

  /** A snapshot passes against itself exactly when each section is a prefix of
      the first one bearing its name. */
  lemma ReflexiveExactlyWhen(s: seq<Section>)
    ensures Passes(s, s) <==> forall i, j | 0 <= i <= j < |s| && FirstNamed(s, s[j].name, i) :: s[j].lines <= s[i].lines
    ensures UniqueNames(s) ==> Passes(s, s)
  {
    forall f | f in s ensures Named(s, f.name) {}
    if Passes(s, s) {
      forall i, j | 0 <= i <= j < |s| && FirstNamed(s, s[j].name, i) ensures s[j].lines <= s[i].lines {
        assert s[j] in s;
        var k :| FirstNamed(s, s[j].name, k) && s[j].lines <= s[k].lines;
      }
    }
    if forall i, j | 0 <= i <= j < |s| && FirstNamed(s, s[j].name, i) :: s[j].lines <= s[i].lines {
      forall f | f in s ensures Keeps(f, s) {
        var j :| 0 <= j < |s| && s[j] == f;
        NamedHasFirst(s, f.name, j);
        var i :| FirstNamed(s, f.name, i);
        assert i <= j;
      }
    }
  }

  lemma Transitive(a: seq<Section>, b: seq<Section>, c: seq<Section>)
    requires Passes(a, b) && Passes(b, c)
    ensures Passes(a, c)
  {
    forall f | f in a ensures Keeps(f, c) {
      var j :| FirstNamed(b, f.name, j) && f.lines <= b[j].lines;
      assert b[j] in b;
      var k :| FirstNamed(c, b[j].name, k) && b[j].lines <= c[k].lines;
      assert f.lines <= c[k].lines;
    }
    forall l | l in c ensures Named(a, l.name) {
      var j :| 0 <= j < |b| && b[j].name == l.name;
      assert b[j] in b;
    }
  }

  /** Line `k` of `f` is line `k` of the section `live` is read at. */
  ghost predicate LineKept(f: Section, live: seq<Section>, k: nat)
    requires k < |f.lines|
  {
    exists j :: FirstNamed(live, f.name, j) && k < |live[j].lines| && live[j].lines[k] == f.lines[k]
  }

  /** However many releases pass, each against the one before, no line of the
      first has moved in the last. */
  lemma {:induction false} ReleasesNeverMoveALine(releases: seq<seq<Section>>, f: Section, k: nat)
    requires |releases| >= 2 && forall i | 0 < i < |releases| :: Passes(releases[i - 1], releases[i])
    requires f in releases[0] && k < |f.lines|
    ensures Passes(releases[0], releases[|releases| - 1])
    ensures LineKept(f, releases[|releases| - 1], k)
  {
    hide Passes;
    var n := |releases| - 1;
    ChainPasses(releases);
    KeptLine(f, releases[0], releases[n], k);
  }

  lemma {:induction false} ChainPasses(releases: seq<seq<Section>>)
    requires |releases| >= 2 && forall i | 0 < i < |releases| :: Passes(releases[i - 1], releases[i])
    ensures Passes(releases[0], releases[|releases| - 1])
  {
    hide Passes;
    var n := |releases| - 1;
    if n > 1 {
      ChainPasses(releases[..n]);
      Transitive(releases[0], releases[n - 1], releases[n]);
    }
  }

  lemma KeptLine(f: Section, frozen: seq<Section>, live: seq<Section>, k: nat)
    requires Passes(frozen, live) && f in frozen && k < |f.lines|
    ensures LineKept(f, live, k)
  {
    var j :| FirstNamed(live, f.name, j) && f.lines <= live[j].lines;
    assert live[j].lines[k] == f.lines[k];
  }

  // ------------------------------------------------------------------ appending

  lemma {:induction false} CountedAppend(a: seq<string>, b: seq<string>)
    ensures Counted(a + b) == Counted(a) + Counted(b)
  {
    if b == [] {
      assert a + b == a;
    } else {
      var n := |b| - 1;
      CountedAppend(a, b[..n]);
      assert (a + b)[..|a + b| - 1] == a + b[..n];
    }
  }

  lemma LinesHead(line: string, rest: string)
    requires '\n' !in line
    ensures Lines(line + ("\n" + rest)) == [line] + Lines(rest)
  {
    var text := line + ("\n" + rest);
    UpToStops(line, "\n" + rest, '\n');
    assert text[|line| + 1..] == rest;
  }

  /** A text that ends in a newline starts with a line that does. */
  lemma CutLine(text: string) returns (line: string, rest: string)
    requires text != "" && text[|text| - 1] == '\n'
    ensures text == line + ("\n" + rest) && '\n' !in line && |rest| < |text|
    ensures rest == "" || rest[|rest| - 1] == '\n'
  {
    line := UpTo(text, '\n');
    UpToShorter(text, '\n');
    rest := text[|line| + 1..];
  }

  lemma {:induction false} LinesAppend(a: string, b: string)
    requires a == "" || a[|a| - 1] == '\n'
    ensures Lines(a + b) == Lines(a) + Lines(b)
    decreases |a|
  {
    hide Lines, UpTo;
    if a == "" {
      NoLines(b);
    } else {
      var line, rest := CutLine(a);
      assert a + b == line + ("\n" + (rest + b));
      LinesHead(line, rest);
      LinesHead(line, rest + b);
      LinesAppend(rest, b);
    }
  }

  lemma NoLines(b: string)
    ensures "" + b == b && Lines("") == []
  {}

  /** `t` is `s` with `more` added to its last section, if it has one. */
  ghost predicate Grown(s: seq<Section>, t: seq<Section>, more: seq<string>) {
    var last := |s| - 1;
    && |t| == |s|
    && (forall k | 0 <= k < last :: t[k] == s[k])
    && (s != [] ==> t[last].name == s[last].name && t[last].lines == s[last].lines + more)
  }

  lemma GrownStep(s: seq<Section>, t: seq<Section>, more: seq<string>, line: string)
    requires Grown(s, t, more) && !IsHeader(line)
    ensures Grown(s, Add(t, line), more + [line])
  {
    var last := |s| - 1;
    assert s != [] ==> s[last].lines + more + [line] == s[last].lines + (more + [line]);
  }

  /** Lines without a header go to the end of the last section, and nowhere when
      there is none. */
  lemma {:induction false} AppendToLast(counted: seq<string>, more: seq<string>)
    requires forall k | 0 <= k < |more| :: !IsHeader(more[k])
    ensures Grown(SectionsOf(counted), SectionsOf(counted + more), more)
  {
    if more == [] {
      assert counted + more == counted;
    } else {
      var n := |more| - 1;
      AppendToLast(counted, more[..n]);
      CountedStep(counted + more[..n], more[n]);
      assert counted + more == counted + more[..n] + [more[n]];
      GrownStep(SectionsOf(counted), SectionsOf(counted + more[..n]), more[..n], more[n]);
      assert more == more[..n] + [more[n]];
    }
  }

  lemma GrowthKeeps(s: seq<Section>, t: seq<Section>, more: seq<string>, k: nat)
    requires Grown(s, t, more) && k < |s|
    ensures Keeps(s[k], t) <==> Keeps(s[k], s)
  {
    NamedHasFirst(s, s[k].name, k);
    var j :| FirstNamed(s, s[k].name, j);
    assert FirstNamed(t, s[k].name, j) && j <= k;
  }

  /** Growing the last section passes exactly when changing nothing does. */
  lemma GrowthPasses(s: seq<Section>, t: seq<Section>, more: seq<string>)
    requires Grown(s, t, more)
    ensures Passes(s, t) <==> Passes(s, s)
  {
    hide Keeps;
    forall f | f in s ensures Keeps(f, t) <==> Keeps(f, s) {
      var k :| 0 <= k < |s| && s[k] == f;
      GrowthKeeps(s, t, more, k);
    }
    forall l | l in t ensures Named(s, l.name) {
      var k :| 0 <= k < |t| && t[k] == l;
      assert s[k].name == l.name;
    }
    forall l | l in s ensures Named(s, l.name) {}
  }

  ghost predicate TextPasses(frozen: string, live: string) {
    Passes(SectionsOf(Counted(Lines(frozen))), SectionsOf(Counted(Lines(live))))
  }

  method CompareCommitted(frozenText: string, liveText: string) returns (passed: bool, break_: Option<PrefixBreak>)
    ensures passed <==> TextPasses(frozenText, liveText)
    ensures passed <==> break_.None?
    ensures BreakSpec(SectionsOf(Counted(Lines(frozenText))), SectionsOf(Counted(Lines(liveText))), break_)
  {
    hide BreakSpec, Passes;
    var frozen := Sections(frozenText);
    var live := Sections(liveText);
    break_ := FirstPrefixBreak(frozen, live);
    BreakExactlyWhen(frozen, live, break_);
    passed := break_.None?;
  }

  /** Text added after a final newline, with no header in it, passes exactly when
      the text without it would; in particular whenever section names are unique. */
  lemma AppendedTextPasses(base: string, extra: string)
    requires base == "" || base[|base| - 1] == '\n'
    requires forall k | 0 <= k < |Lines(extra)| :: !IsHeader(TrimEnd(Lines(extra)[k]))
    ensures TextPasses(base, base + extra) <==> TextPasses(base, base)
    ensures UniqueNames(SectionsOf(Counted(Lines(base)))) ==> TextPasses(base, base + extra)
  {
    hide Passes, Lines, UniqueNames, Grown, SectionsOf, Counted;
    var counted, more := Counted(Lines(base)), Counted(Lines(extra));
    LinesAppend(base, extra);
    CountedAppend(Lines(base), Lines(extra));
    NoHeaderCounted(Lines(extra));
    AppendToLast(counted, more);
    GrowthPasses(SectionsOf(counted), SectionsOf(counted + more), more);
    ReflexiveExactlyWhen(SectionsOf(counted));
  }

  lemma {:induction false} NoHeaderCounted(lines: seq<string>)
    requires forall k | 0 <= k < |lines| :: !IsHeader(TrimEnd(lines[k]))
    ensures forall k | 0 <= k < |Counted(lines)| :: !IsHeader(Counted(lines)[k])
  {
    if lines != [] { NoHeaderCounted(lines[..|lines| - 1]); }
  }

  /** Identical texts do not always pass: a family listed twice, with different
      lines, is compared against its first listing only. */
  lemma IdenticalTextsMayFail()
    ensures !TextPasses("[A]\n[A]x", "[A]\n[A]x")
  {
    hide Passes, Lines, Counted, SectionsOf, HeaderName;
    var text, first, second := "[A]\n[A]x", "[A]", "[A]x";
    TwoLines(text, first, second);
    TwoHeaders(first, second);
    SameName(first, second);
    var s := SectionsOf(Counted([first, second]));
    assert FirstNamed(s, s[1].name, 0) && s[1].lines[0] != s[0].lines[0] by { assert |first| != |second|; }
    ReflexiveExactlyWhen(s);
  }

  lemma TwoHeaders(first: string, second: string)
    requires IsHeader(first) && TrimEnd(first) == first && IsHeader(second) && TrimEnd(second) == second
    ensures SectionsOf(Counted([first, second]))
            == [Section(HeaderName(first), [first]), Section(HeaderName(second), [second])]
  {
    hide HeaderName, TrimEnd, Counted, SectionsOf;
    CountedOne(first);
    CountedOne(second);
    CountedAppend([first], [second]);
    assert [first] + [second] == [first, second];
    assert SectionsOf([]) == [] by { NoSections(); }
    CountedStep([], first);
    CountedStep([first], second);
    assert [] + [first] == [first];
  }

  lemma NoSections()
    ensures SectionsOf([]) == []
  {}

  lemma CountedOne(line: string)
    requires IsHeader(line) && TrimEnd(line) == line
    ensures Counted([line]) == [line]
  {
    hide TrimEnd;
    assert [line][..0] == [];
  }

  lemma TwoLines(text: string, first: string, second: string)
    requires text == first + "\n" + second && '\n' !in first && '\n' !in second && second != ""
    ensures Lines(text) == [first, second]
  {
    UpToStops(first, "\n" + second, '\n');
    assert text == first + ("\n" + second);
    UpToStops(second, "", '\n');
    assert second + "" == second;
    assert text[|first| + 1..] == second;
  }

  lemma SameName(first: string, second: string)
    requires first == "[A]" && second == "[A]x"
    ensures HeaderName(first) == HeaderName(second)
  {
    UpToStops("[A", "]", ']');
    UpToStops("[A", "]x", ']');
    assert first == "[A" + "]" && second == "[A" + "]x";
  }

  lemma {:induction false} UpToStops(a: string, b: string, stop: char)
    requires stop !in a && (b == "" || b[0] == stop)
    ensures UpTo(a + b, stop) == a
  {
    if a == "" {
      assert a + b == b;
    } else {
      assert (a + b)[1..] == a[1..] + b;
      UpToStops(a[1..], b, stop);
    }
  }
}
