/** Which declared port each claim gets, stated without the algorithm.

    A claim accepts a list of names, most specific first; the position of a
    name in that list is its rank. Claims are numbered in registration order.
    The pair (rank, claim) is the priority at which a claim asks for a port. */
module PortMatching {
  import opened Wrappers
  import opened Collections

  datatype Claim = Claim(entry: string, candidates: seq<string>, required: bool, port: Option<string>)

  /** The rank each claim was matched at by name, if it was. */
  type Ranks = seq<Option<nat>>

  /** Priority (s, j) comes before (r, i). */
  predicate Sooner(s: nat, j: nat, r: nat, i: nat) {
    s < r || (s == r && j < i)
  }

  predicate Holds(claims: seq<Claim>, ranks: Ranks, j: nat, port: string)
    requires |ranks| == |claims|
  {
    && j < |claims|
    && ranks[j].Some?
    && ranks[j].value < |claims[j].candidates|
    && claims[j].candidates[ranks[j].value] == port
  }

  ghost predicate HeldSooner(claims: seq<Claim>, ranks: Ranks, port: string, r: nat, i: nat)
    requires |ranks| == |claims|
  {
    exists j: nat :: Holds(claims, ranks, j, port) && Sooner(ranks[j].value, j, r, i)
  }

  /** Matched claims hold declared ports, no port is held twice. */
  ghost predicate Sound(declared: set<string>, claims: seq<Claim>, ranks: Ranks)
    requires |ranks| == |claims|
  {
    && (forall i | 0 <= i < |claims| && ranks[i].Some? ::
          ranks[i].value < |claims[i].candidates| && claims[i].candidates[ranks[i].value] in declared)
    && (forall i: nat, j: nat, port | Holds(claims, ranks, i, port) && Holds(claims, ranks, j, port) :: i == j)
  }

  /** Claim `i` has no cause to complain about rank `r`: it was matched there or
      better, or the port it wanted does not exist, or went to a claim that
      asked for it sooner. */
  ghost predicate Content(declared: set<string>, claims: seq<Claim>, ranks: Ranks, r: nat, i: nat)
    requires |ranks| == |claims| && i < |claims| && r < |claims[i].candidates|
  {
    || (ranks[i].Some? && ranks[i].value <= r)
    || claims[i].candidates[r] !in declared
    || HeldSooner(claims, ranks, claims[i].candidates[r], r, i)
  }

  /** The matching by name: sound, and nobody has justified envy. */
  ghost predicate NameMatching(declared: set<string>, claims: seq<Claim>, ranks: Ranks) {
    && |ranks| == |claims|
    && Sound(declared, claims, ranks)
    && (forall i, r: nat {:trigger Content(declared, claims, ranks, r, i)} |
          0 <= i < |claims| && r < |claims[i].candidates| :: Content(declared, claims, ranks, r, i))
  }

  /** There is only one such matching. */
  lemma MatchingUnique(declared: set<string>, claims: seq<Claim>, p: Ranks, q: Ranks)
    requires NameMatching(declared, claims, p) && NameMatching(declared, claims, q)
    ensures p == q
  {
    forall i | 0 <= i < |claims| ensures p[i] == q[i] {
      if p[i].Some? { SameAt(declared, claims, p, q, p[i].value, i); }
      if q[i].Some? { SameAt(declared, claims, q, p, q[i].value, i); }
    }
  }

  /** By induction on the priority: what one matching grants, so does the other. */
  lemma {:induction false} SameAt(declared: set<string>, claims: seq<Claim>, p: Ranks, q: Ranks, r: nat, i: nat)
    requires NameMatching(declared, claims, p) && NameMatching(declared, claims, q)
    requires i < |claims| && p[i] == Some(r)
    ensures q[i] == Some(r)
    decreases r, i
  {
    var port := claims[i].candidates[r];
    assert Holds(claims, p, i, port);
    assert Content(declared, claims, q, r, i);
    if q[i].Some? && q[i].value < r {
      SameAt(declared, claims, q, p, q[i].value, i);
    } else if q[i] != Some(r) {
      var j: nat :| Holds(claims, q, j, port) && Sooner(q[j].value, j, r, i);
      assert Holds(claims, p, j, port) ==> j == i;
      SameAt(declared, claims, q, p, q[j].value, j);
    }
  }

  // ------------------------------------------------------------- elimination

  ghost function HeldPorts(claims: seq<Claim>, ranks: Ranks): set<string>
    requires |ranks| == |claims|
  {
    set i | 0 <= i < |claims| && ranks[i].Some? && ranks[i].value < |claims[i].candidates|
      :: claims[i].candidates[ranks[i].value]
  }

  /** The declared ports no claim was matched to by name. */
  ghost function Leftover(declared: multiset<string>, claims: seq<Claim>, ranks: Ranks): multiset<string>
    requires |ranks| == |claims|
  {
    declared - multiset(HeldPorts(claims, ranks))
  }

  ghost function Unmatched(claims: seq<Claim>, ranks: Ranks): set<nat>
    requires |ranks| == |claims|
  {
    set i: nat | i < |claims| && ranks[i].None? && claims[i].required
  }

  ghost function Support(m: multiset<string>): set<string> {
    set x | x in m
  }

  ghost function Only(m: multiset<string>): string
    requires |m| == 1
  {
    var x :| x in m; x
  }

  /** One required claim and one port are left over: they belong together. */
  ghost predicate Unambiguous(declared: multiset<string>, claims: seq<Claim>, ranks: Ranks)
    requires |ranks| == |claims|
  {
    |Unmatched(claims, ranks)| == 1 && |Leftover(declared, claims, ranks)| == 1
  }

  ghost function PortOf(declared: multiset<string>, claims: seq<Claim>, ranks: Ranks, i: nat): Option<string>
    requires |ranks| == |claims| && i < |claims|
    requires ranks[i].Some? ==> ranks[i].value < |claims[i].candidates|
  {
    if ranks[i].Some? then Some(claims[i].candidates[ranks[i].value])
    else if i in Unmatched(claims, ranks) && Unambiguous(declared, claims, ranks)
    then Some(Only(Leftover(declared, claims, ranks)))
    else None
  }

  datatype PlanError = NoSuchPort(entry: string, direction: string, wanted: string)

  datatype Outcome = Resolved | Refused(error: PlanError)

  function Wanted(c: Claim): string {
    if c.candidates == [] then "?" else c.candidates[0]
  }

  /** `i` is the first required claim left without a port. */
  predicate FirstFailure(claims: seq<Claim>, i: nat) {
    && i < |claims|
    && claims[i].required && claims[i].port.None?
    && forall k | 0 <= k < i :: claims[k].required ==> claims[k].port.Some?
  }

  /** `resolved` is `claims` with every assignment made, and `outcome` says so. */
  ghost predicate Resolution(declared: multiset<string>, direction: string, claims: seq<Claim>,
                             resolved: seq<Claim>, outcome: Outcome)
  {
    exists ranks :: ResolvedBy(declared, direction, claims, ranks, resolved, outcome)
  }

  ghost predicate ResolvedBy(declared: multiset<string>, direction: string, claims: seq<Claim>, ranks: Ranks,
                             resolved: seq<Claim>, outcome: Outcome)
  {
    && NameMatching(Support(declared), claims, ranks)
    && |resolved| == |claims|
    && (forall i | 0 <= i < |claims| :: resolved[i] == claims[i].(port := PortOf(declared, claims, ranks, i)))
    && match outcome
       case Resolved => forall i | 0 <= i < |resolved| :: resolved[i].required ==> resolved[i].port.Some?
       case Refused(e) => exists i: nat ::
           FirstFailure(resolved, i) && e == NoSuchPort(resolved[i].entry, direction, Wanted(resolved[i]))
  }

  /** Declaration order never decides: two nodes declaring the same ports in any
      order get the same assignments, and the same failure for the same claim. */
  lemma DeclarationOrderIrrelevant(d1: seq<string>, d2: seq<string>, direction: string, claims: seq<Claim>,
                                   r1: seq<Claim>, r2: seq<Claim>,
                                   o1: Outcome, o2: Outcome)
    requires multiset(d1) == multiset(d2)
    requires Resolution(multiset(d1), direction, claims, r1, o1)
    requires Resolution(multiset(d2), direction, claims, r2, o2)
    ensures r1 == r2 && o1 == o2
  {
    var p :| ResolvedBy(multiset(d1), direction, claims, p, r1, o1);
    var q :| ResolvedBy(multiset(d2), direction, claims, q, r2, o2);
    MatchingUnique(Support(multiset(d1)), claims, p, q);
    assert r1 == r2;
    if o1.Refused? {
      var i: nat :| FirstFailure(r1, i) && o1.error == NoSuchPort(r1[i].entry, direction, Wanted(r1[i]));
      assert o2.Refused?;
      var j: nat :| FirstFailure(r2, j) && o2.error == NoSuchPort(r2[j].entry, direction, Wanted(r2[j]));
      assert i == j;
    }
  }

  /** Resolution succeeds exactly when the names leave no required claim
      unmatched, or one such claim and exactly one free port. */
  lemma SucceedsExactlyWhen(declared: multiset<string>, direction: string, claims: seq<Claim>, ranks: Ranks,
                            resolved: seq<Claim>, outcome: Outcome)
    requires ResolvedBy(declared, direction, claims, ranks, resolved, outcome)
    ensures outcome.Resolved? <==> Unmatched(claims, ranks) == {} || Unambiguous(declared, claims, ranks)
  {
    if outcome.Resolved? && Unmatched(claims, ranks) != {} {
      var i :| i in Unmatched(claims, ranks);
      assert resolved[i].port.Some?;
    } else if outcome.Refused? {
      var i: nat :| FirstFailure(resolved, i);
      assert i in Unmatched(claims, ranks);
    }
  }

  /** Two claims share a port name exactly when elimination hands out the second
      declaration of a name that was already matched; so never, when no name is
      declared twice. */
  lemma SharedExactlyWhen(declared: multiset<string>, direction: string, claims: seq<Claim>, ranks: Ranks,
                          resolved: seq<Claim>, outcome: Outcome)
    requires ResolvedBy(declared, direction, claims, ranks, resolved, outcome)
    ensures (exists i, j | 0 <= i < j < |resolved| :: resolved[i].port.Some? && resolved[i].port == resolved[j].port)
       <==> Unambiguous(declared, claims, ranks) && declared[Only(Leftover(declared, claims, ranks))] >= 2
  {
    var held := HeldPorts(claims, ranks);
    forall i, j | 0 <= i < j < |resolved| && resolved[i].port.Some? && resolved[i].port == resolved[j].port
      ensures Unambiguous(declared, claims, ranks) && declared[Only(Leftover(declared, claims, ranks))] >= 2
    {
      SharedIsSecond(declared, direction, claims, ranks, resolved, outcome, i, j);
    }
    if Unambiguous(declared, claims, ranks) && declared[Only(Leftover(declared, claims, ranks))] >= 2 {
      var port := Only(Leftover(declared, claims, ranks));
      OnlyOnce(Leftover(declared, claims, ranks), port);
      assert port in held;
      var i :| 0 <= i < |claims| && ranks[i].Some? && ranks[i].value < |claims[i].candidates|
          && claims[i].candidates[ranks[i].value] == port;
      var j :| j in Unmatched(claims, ranks);
      assert resolved[i].port == resolved[j].port == Some(port);
      assert i < j || j < i;
    }
  }

  lemma OnlyOnce(m: multiset<string>, x: string)
    requires |m| == 1 && x in m
    ensures m[x] == 1
  {
    assert m == multiset{x} + (m - multiset{x});
  }

  lemma SharedIsSecond(declared: multiset<string>, direction: string, claims: seq<Claim>, ranks: Ranks,
                       resolved: seq<Claim>, outcome: Outcome, i: nat, j: nat)
    requires ResolvedBy(declared, direction, claims, ranks, resolved, outcome)
    requires i < j < |resolved| && resolved[i].port.Some? && resolved[i].port == resolved[j].port
    ensures Unambiguous(declared, claims, ranks) && resolved[i].port.value == Only(Leftover(declared, claims, ranks))
    ensures declared[resolved[i].port.value] >= 2
  {
    var port := resolved[i].port.value;
    assert !(Holds(claims, ranks, i, port) && Holds(claims, ranks, j, port));
    assert ranks[i].Some? || ranks[j].Some? by {
      if ranks[i].None? && ranks[j].None? { SubsetSize({i, j}, Unmatched(claims, ranks)); }
    }
    var k := if ranks[i].Some? then i else j;
    assert claims[k].candidates[ranks[k].value] == port;
    assert port in HeldPorts(claims, ranks);
  }

  /** Every assigned port is a declared one. */
  lemma AssignedDeclared(declared: multiset<string>, direction: string, claims: seq<Claim>, ranks: Ranks,
                         resolved: seq<Claim>, outcome: Outcome, i: nat)
    requires ResolvedBy(declared, direction, claims, ranks, resolved, outcome)
    requires i < |claims| && resolved[i].port.Some?
    ensures resolved[i].port.value in declared
  {
    if ranks[i].None? {
      assert Only(Leftover(declared, claims, ranks)) in Leftover(declared, claims, ranks);
    }
  }

  /** The case where two claims do share: `a` declared twice, one claim for `a`
      and one for a name nobody declares. */
  lemma DeclaredTwiceIsShared(direction: string)
    ensures var first, second := Claim("x", ["a"], true, None), Claim("y", ["b"], true, None);
            Resolution(multiset(["a", "a"]), direction, [first, second],
                       [first.(port := Some("a")), second.(port := Some("a"))], Resolved)
  {
    var first, second := Claim("x", ["a"], true, None), Claim("y", ["b"], true, None);
    var claims, ranks: Ranks, declared := [first, second], [Some(0), None], multiset(["a", "a"]);
    OnlyTheFirstMatches(claims, ranks, declared);
    hide NameMatching;
    SecondDeclarationLeft(claims, ranks, declared);
    hide HeldPorts, Leftover, Unmatched;
    assert ResolvedBy(declared, direction, claims, ranks, [first.(port := Some("a")), second.(port := Some("a"))],
                      Resolved);
  }

  lemma SecondDeclarationLeft(claims: seq<Claim>, ranks: Ranks, declared: multiset<string>)
    requires |claims| == 2 && claims[0].candidates == ["a"] && claims[1].required
    requires ranks == [Some(0), None] && declared == multiset(["a", "a"])
    ensures Leftover(declared, claims, ranks) == multiset{"a"} && Unmatched(claims, ranks) == {1}
  {
    assert HeldPorts(claims, ranks) == {"a"} by { assert claims[0].candidates[ranks[0].value] == "a"; }
  }

  lemma OnlyTheFirstMatches(claims: seq<Claim>, ranks: Ranks, declared: multiset<string>)
    requires |claims| == 2 && claims[0].candidates == ["a"] && claims[1].candidates == ["b"]
    requires ranks == [Some(0), None] && declared == multiset(["a", "a"])
    ensures NameMatching(Support(declared), claims, ranks)
  {}
}
