/** The declared ports of one direction and the claims on them: every claim is
    registered first, then all are resolved, then read back in order. */
module PortPool {
  import opened Wrappers
  import opened Collections
  import opened PortMatching

  // ----------------------------------------------------- the passes by name

  /** The matching as far as priority (rank, index): granted requests all came
      sooner, and nobody who asked sooner has cause to complain. */
  ghost predicate MatchedUpTo(declared: set<string>, claims: seq<Claim>, ranks: Ranks, rank: nat, index: nat) {
    && |ranks| == |claims|
    && Sound(declared, claims, ranks)
    && (forall i | 0 <= i < |claims| && ranks[i].Some? :: Sooner(ranks[i].value, i, rank, index))
    && (forall i, r: nat {:trigger Content(declared, claims, ranks, r, i)} |
          0 <= i < |claims| && r < |claims[i].candidates| && Sooner(r, i, rank, index)
          :: Content(declared, claims, ranks, r, i))
  }

  lemma AskInVain(declared: set<string>, claims: seq<Claim>, ranks: Ranks, rank: nat, index: nat)
    requires MatchedUpTo(declared, claims, ranks, rank, index) && index < |claims|
    requires rank < |claims[index].candidates| ==> Content(declared, claims, ranks, rank, index)
    ensures MatchedUpTo(declared, claims, ranks, rank, index + 1)
  {}

  lemma AskGranted(declared: set<string>, claims: seq<Claim>, ranks: Ranks, rank: nat, index: nat)
    requires MatchedUpTo(declared, claims, ranks, rank, index) && index < |claims|
    requires rank < |claims[index].candidates| && ranks[index].None?
    requires claims[index].candidates[rank] in declared
    requires claims[index].candidates[rank] !in HeldPorts(claims, ranks)
    ensures MatchedUpTo(declared, claims, ranks[index := Some(rank)], rank, index + 1)
    ensures HeldPorts(claims, ranks[index := Some(rank)]) == HeldPorts(claims, ranks) + {claims[index].candidates[rank]}
  {
    var after := ranks[index := Some(rank)];
    var port := claims[index].candidates[rank];
    assert Holds(claims, after, index, port);
    forall i: nat, j: nat, p | Holds(claims, after, i, p) && Holds(claims, after, j, p) ensures i == j {
      assert i != index ==> Holds(claims, ranks, i, p) && p in HeldPorts(claims, ranks);
      assert j != index ==> Holds(claims, ranks, j, p) && p in HeldPorts(claims, ranks);
    }
    forall i, r: nat | 0 <= i < |claims| && r < |claims[i].candidates| && Sooner(r, i, rank, index + 1)
      ensures Content(declared, claims, after, r, i)
    {
      if !(i == index && r == rank) {
        assert Content(declared, claims, ranks, r, i);
        var wanted := claims[i].candidates[r];
        if HeldSooner(claims, ranks, wanted, r, i) {
          var j: nat :| Holds(claims, ranks, j, wanted) && Sooner(ranks[j].value, j, r, i);
          assert Holds(claims, after, j, wanted);
        }
      }
    }
    forall p ensures p in HeldPorts(claims, after) <==> p in HeldPorts(claims, ranks) + {port} {
      if p in HeldPorts(claims, ranks) {
        var i :| 0 <= i < |claims| && ranks[i].Some? && ranks[i].value < |claims[i].candidates|
            && claims[i].candidates[ranks[i].value] == p;
        assert after[i] == ranks[i];
      }
      if p == port { assert after[index].Some?; }
    }
  }

  lemma NextRank(declared: set<string>, claims: seq<Claim>, ranks: Ranks, rank: nat)
    requires MatchedUpTo(declared, claims, ranks, rank, |claims|)
    ensures MatchedUpTo(declared, claims, ranks, rank + 1, 0)
  {}

  /** Once no unmatched claim has a candidate at this rank, all have been tried. */
  lemma AllTried(declared: set<string>, claims: seq<Claim>, ranks: Ranks, rank: nat)
    requires MatchedUpTo(declared, claims, ranks, rank, |claims|)
    requires forall i | 0 <= i < |claims| && ranks[i].None? :: |claims[i].candidates| <= rank
    ensures NameMatching(declared, claims, ranks)
  {
    forall i, r: nat | 0 <= i < |claims| && r < |claims[i].candidates| ensures Content(declared, claims, ranks, r, i) {
      if Sooner(r, i, rank, |claims|) { assert Content(declared, claims, ranks, r, i); }
    }
  }

  /** `now` is `claims` with the ports of `ranks` filled in. */
  ghost predicate Filled(claims: seq<Claim>, now: seq<Claim>, ranks: Ranks) {
    && |now| == |claims| == |ranks|
    && forall i | 0 <= i < |claims| ::
         && (ranks[i].Some? ==> ranks[i].value < |claims[i].candidates|)
         && now[i] == claims[i].(port := if ranks[i].Some? then Some(claims[i].candidates[ranks[i].value]) else None)
  }

  /** `p` is the first declaration of its name. */
  predicate FirstDeclared(declared: seq<string>, p: nat) requires p < |declared| {
    forall k | 0 <= k < p :: declared[k] != declared[p]
  }

  /** A declaration is taken when it is the first of a held name. */
  ghost predicate Tracks(declared: seq<string>, taken: seq<Option<nat>>, held: set<string>) {
    && |taken| == |declared|
    && forall p | 0 <= p < |declared| :: taken[p].Some? <==> declared[p] in held && FirstDeclared(declared, p)
  }

  lemma TakeFirst(declared: seq<string>, taken: seq<Option<nat>>, held: set<string>, p: nat, owner: nat)
    requires Tracks(declared, taken, held) && p < |declared| && FirstDeclared(declared, p)
    ensures Tracks(declared, taken[p := Some(owner)], held + {declared[p]})
  {}

  /** One claim asks for its candidate of one rank, if it has none yet. */
  method Ask(declared: seq<string>, claims: seq<Claim>, now0: seq<Claim>, taken0: seq<Option<nat>>,
             rank: nat, index: nat, ghost ranks0: Ranks)
    returns (now: seq<Claim>, taken: seq<Option<nat>>, asked: bool, ghost ranks: Ranks)
    requires index < |claims| && MatchedUpTo(Elements(declared), claims, ranks0, rank, index)
    requires Filled(claims, now0, ranks0) && Tracks(declared, taken0, HeldPorts(claims, ranks0))
    ensures MatchedUpTo(Elements(declared), claims, ranks, rank, index + 1)
    ensures Filled(claims, now, ranks) && Tracks(declared, taken, HeldPorts(claims, ranks))
    ensures asked <==> ranks0[index].None? && rank < |claims[index].candidates|
    ensures !asked ==> ranks == ranks0
  {
    hide HeldPorts;
    now, taken, ranks := now0, taken0, ranks0;
    var claim := now[index];
    assert claim.candidates == claims[index].candidates;
    asked := claim.port.None? && rank < |claim.candidates|;
    if asked {
      var found := Position(declared, claim.candidates[rank]);
      if found.Some? && taken[found.value].None? {
        AskGranted(Elements(declared), claims, ranks, rank, index);
        TakeFirst(declared, taken, HeldPorts(claims, ranks), found.value, index);
        taken := taken[found.value := Some(index)];
        now := now[index := claim.(port := Some(declared[found.value]))];
        ranks := ranks[index := Some(rank)];
        return;
      }
      TakenSooner(Elements(declared), claims, ranks, rank, index);
    }
    AskInVain(Elements(declared), claims, ranks, rank, index);
  }

  /** One rank: every unmatched claim asks for its candidate of that rank. */
  method RankPass(declared: seq<string>, claims: seq<Claim>, now0: seq<Claim>, taken0: seq<Option<nat>>,
                  rank: nat, ghost ranks0: Ranks)
    returns (now: seq<Claim>, taken: seq<Option<nat>>, progressed: bool, ghost ranks: Ranks)
    requires MatchedUpTo(Elements(declared), claims, ranks0, rank, 0)
    requires Filled(claims, now0, ranks0) && Tracks(declared, taken0, HeldPorts(claims, ranks0))
    ensures MatchedUpTo(Elements(declared), claims, ranks, rank, |claims|)
    ensures Filled(claims, now, ranks) && Tracks(declared, taken, HeldPorts(claims, ranks))
    ensures !progressed ==> ranks == ranks0
    ensures !progressed ==> forall i | 0 <= i < |claims| && ranks[i].None? :: |claims[i].candidates| <= rank
    ensures progressed ==> exists i :: 0 <= i < |claims| && rank < |claims[i].candidates|
  {
    hide HeldPorts, MatchedUpTo, Tracks;
    now, taken, progressed, ranks := now0, taken0, false, ranks0;
    for index := 0 to |claims|
      invariant MatchedUpTo(Elements(declared), claims, ranks, rank, index)
      invariant Filled(claims, now, ranks) && Tracks(declared, taken, HeldPorts(claims, ranks))
      invariant !progressed ==> ranks == ranks0
      invariant !progressed ==> forall i | 0 <= i < index && ranks[i].None? :: |claims[i].candidates| <= rank
      invariant progressed ==> exists i :: 0 <= i < |claims| && rank < |claims[i].candidates|
    {
      var asked;
      now, taken, asked, ranks := Ask(declared, claims, now, taken, rank, index, ranks);
      progressed := progressed || asked;
    }
  }

  lemma TakenSooner(declared: set<string>, claims: seq<Claim>, ranks: Ranks, rank: nat, index: nat)
    requires MatchedUpTo(declared, claims, ranks, rank, index) && index < |claims| && rank < |claims[index].candidates|
    requires claims[index].candidates[rank] !in declared || claims[index].candidates[rank] in HeldPorts(claims, ranks)
    ensures Content(declared, claims, ranks, rank, index)
  {
    var port := claims[index].candidates[rank];
    if port in declared {
      var j: nat :| j < |claims| && ranks[j].Some? && ranks[j].value < |claims[j].candidates|
          && claims[j].candidates[ranks[j].value] == port;
      assert Holds(claims, ranks, j, port);
    }
  }

  ghost function Longest(claims: seq<Claim>): (n: nat)
    ensures forall i | 0 <= i < |claims| :: |claims[i].candidates| <= n
  {
    if claims == [] then 0
    else
      var n := Longest(claims[..|claims| - 1]);
      var c := |claims[|claims| - 1].candidates|;
      if n < c then c else n
  }

  ghost predicate Unassigned(claims: seq<Claim>) {
    forall i | 0 <= i < |claims| :: claims[i].port.None?
  }

  /** All claims at rank 0, then all at rank 1, and so on until nobody asks. */
  method MatchByName(declared: seq<string>, claims: seq<Claim>)
    returns (now: seq<Claim>, taken: seq<Option<nat>>, ghost ranks: Ranks)
    requires Unassigned(claims)
    ensures NameMatching(Elements(declared), claims, ranks)
    ensures Filled(claims, now, ranks) && Tracks(declared, taken, HeldPorts(claims, ranks))
  {
    now := claims;
    taken := seq(|declared|, _ => None);
    ranks := seq(|claims|, _ => None);
    assert HeldPorts(claims, ranks) == {};
    var rank := 0;
    while true
      invariant MatchedUpTo(Elements(declared), claims, ranks, rank, 0)
      invariant Filled(claims, now, ranks) && Tracks(declared, taken, HeldPorts(claims, ranks))
      invariant rank <= Longest(claims)
      decreases Longest(claims) - rank
    {
      var progressed: bool;
      now, taken, progressed, ranks := RankPass(declared, claims, now, taken, rank, ranks);
      if !progressed { break; }
      NextRank(Elements(declared), claims, ranks, rank);
      rank := rank + 1;
    }
    AllTried(Elements(declared), claims, ranks, rank);
  }

  // ---------------------------------------------------------- elimination

  /** The first `p` declarations, split into the free ones and the held names. */
  ghost predicate Split(declared: seq<string>, p: nat, free: seq<string>, held: set<string>)
    requires p <= |declared|
  {
    multiset(declared[..p]) == multiset(free) + multiset(held * Elements(declared[..p]))
  }

  lemma SplitNone(declared: seq<string>, held: set<string>)
    ensures Split(declared, 0, [], held)
  {
    assert declared[..0] == [] && held * Elements([]) == {};
  }

  lemma SplitFree(declared: seq<string>, p: nat, free: seq<string>, held: set<string>)
    requires p < |declared| && Split(declared, p, free, held)
    requires declared[p] in held ==> !FirstDeclared(declared, p)
    ensures Split(declared, p + 1, free + [declared[p]], held)
  {
    assert declared[..p + 1] == declared[..p] + [declared[p]];
    assert held * Elements(declared[..p + 1]) == held * Elements(declared[..p]);
  }

  lemma SplitTaken(declared: seq<string>, p: nat, free: seq<string>, held: set<string>)
    requires p < |declared| && Split(declared, p, free, held)
    requires declared[p] in held && FirstDeclared(declared, p)
    ensures Split(declared, p + 1, free, held)
  {
    assert declared[..p + 1] == declared[..p] + [declared[p]];
    assert declared[p] !in Elements(declared[..p]);
    assert held * Elements(declared[..p + 1]) == (held * Elements(declared[..p])) + {declared[p]};
  }

  lemma SplitAll(declared: seq<string>, free: seq<string>, held: set<string>)
    requires Split(declared, |declared|, free, held) && held <= Elements(declared)
    ensures multiset(declared) - multiset(held) == multiset(free)
  {
    assert declared[..|declared|] == declared && held * Elements(declared) == held;
  }

  /** The positions nobody took: as names, what matching by name left over. */
  method FreePositions(declared: seq<string>, taken: seq<Option<nat>>, ghost held: set<string>)
    returns (free: seq<nat>, ghost names: seq<string>)
    requires Tracks(declared, taken, held) && held <= Elements(declared)
    ensures |names| == |free| && forall k | 0 <= k < |free| :: free[k] < |declared| && names[k] == declared[free[k]]
    ensures multiset(declared) - multiset(held) == multiset(names)
  {
    hide Split, Elements;
    free, names := [], [];
    SplitNone(declared, held);
    var p := 0;
    while p < |taken|
      invariant 0 <= p <= |taken| && |names| == |free|
      invariant forall k | 0 <= k < |free| :: free[k] < |declared| && names[k] == declared[free[k]]
      invariant Split(declared, p, names, held)
    {
      if taken[p].None? {
        SplitFree(declared, p, names, held);
        free, names := free + [p], names + [declared[p]];
      } else {
        SplitTaken(declared, p, names, held);
      }
      p := p + 1;
    }
    SplitAll(declared, names, held);
  }

  method UnmatchedRequired(claims: seq<Claim>, now: seq<Claim>, ghost ranks: Ranks) returns (unmatched: seq<nat>)
    requires Filled(claims, now, ranks)
    ensures forall k | 0 <= k < |unmatched| :: unmatched[k] in Unmatched(claims, ranks)
    ensures forall k, l | 0 <= k < l < |unmatched| :: unmatched[k] < unmatched[l]
    ensures |unmatched| == |Unmatched(claims, ranks)|
    ensures |unmatched| == 1 ==> Unmatched(claims, ranks) == {unmatched[0]}
  {
    unmatched := [];
    ghost var seen: set<nat> := {};
    var i := 0;
    while i < |now|
      invariant 0 <= i <= |now|
      invariant seen == set k: nat | k in Unmatched(claims, ranks) && k < i
      invariant |seen| == |unmatched| && forall k | 0 <= k < |unmatched| :: unmatched[k] in seen
      invariant forall k, l | 0 <= k < l < |unmatched| :: unmatched[k] < unmatched[l]
      invariant |unmatched| == 1 ==> seen == {unmatched[0]}
    {
      if now[i].port.None? && now[i].required {
        assert |unmatched| == 0 ==> seen == {};
        unmatched, seen := unmatched + [i], seen + {i};
      }
      i := i + 1;
    }
    assert seen == Unmatched(claims, ranks);
  }

  /** Match by name, then pair the last required claim with the last free port
      if that is unambiguous, then report the first claim still without one. */
  method ResolveClaims(declared: seq<string>, direction: string, claims: seq<Claim>)
    returns (now: seq<Claim>, outcome: Outcome)
    requires Unassigned(claims)
    ensures Resolution(multiset(declared), direction, claims, now, outcome)
  {
    var taken; ghost var ranks: Ranks;
    now, taken, ranks := MatchByName(declared, claims);
    HeldDeclared(declared, claims, ranks);
    var unmatched := UnmatchedRequired(claims, now, ranks);
    var free; ghost var names;
    free, names := FreePositions(declared, taken, HeldPorts(claims, ranks));
    assert |multiset(names)| == |free| && (|free| == 1 ==> names == [declared[free[0]]]);
    ghost var named := now;
    if |unmatched| == 1 && |free| == 1 {
      now := now[unmatched[0] := now[unmatched[0]].(port := Some(declared[free[0]]))];
    }
    Settled(declared, claims, ranks, named, now);
    outcome := FirstMissing(direction, now);
    assert ResolvedBy(multiset(declared), direction, claims, ranks, now, outcome);
  }

  lemma HeldDeclared(declared: seq<string>, claims: seq<Claim>, ranks: Ranks)
    requires NameMatching(Elements(declared), claims, ranks)
    ensures HeldPorts(claims, ranks) <= Elements(declared)
    ensures Elements(declared) == Support(multiset(declared))
  {}

  lemma Settled(declared: seq<string>, claims: seq<Claim>, ranks: Ranks, named: seq<Claim>, now: seq<Claim>)
    requires Filled(claims, named, ranks)
    requires Unambiguous(multiset(declared), claims, ranks) ==>
      exists i: nat :: Unmatched(claims, ranks) == {i}
        && now == named[i := named[i].(port := Some(Only(Leftover(multiset(declared), claims, ranks))))]
    requires !Unambiguous(multiset(declared), claims, ranks) ==> now == named
    ensures |now| == |claims|
    ensures forall i | 0 <= i < |claims| :: now[i] == claims[i].(port := PortOf(multiset(declared), claims, ranks, i))
  {}

  method FirstMissing(direction: string, now: seq<Claim>) returns (outcome: Outcome)
    ensures outcome.Resolved? ==> forall i | 0 <= i < |now| :: now[i].required ==> now[i].port.Some?
    ensures outcome.Refused? ==>
      exists i: nat :: FirstFailure(now, i) && outcome.error == NoSuchPort(now[i].entry, direction, Wanted(now[i]))
  {
    for i := 0 to |now|
      invariant forall k | 0 <= k < i :: now[k].required ==> now[k].port.Some?
    {
      if now[i].port.None? && now[i].required {
        assert FirstFailure(now, i);
        return Refused(NoSuchPort(now[i].entry, direction, Wanted(now[i])));
      }
    }
    return Resolved;
  }

  // ----------------------------------------------------------------- the pool

  class PortPool {
    const direction: string
    const declared: seq<string>
    var claims: seq<Claim>
    var cursor: nat

    constructor (direction: string, declared: seq<string>)
      ensures this.direction == direction && this.declared == declared
      ensures claims == [] && cursor == 0
    {
      this.direction, this.declared := direction, declared;
      claims, cursor := [], 0;
    }

    method Register(entry: string, candidates: seq<string>, required: bool)
      modifies this`claims
      ensures claims == old(claims) + [Claim(entry, candidates, required, None)]
    {
      claims := claims + [Claim(entry, candidates, required, None)];
    }

    method Resolve() returns (outcome: Outcome)
      requires Unassigned(claims)
      modifies this`claims
      ensures Resolution(multiset(declared), direction, old(claims), claims, outcome)
    {
      claims, outcome := ResolveClaims(declared, direction, claims);
    }

    /** The next assignment in claim order, stepping over optional claims that
        matched nothing. */
    method Take() returns (r: Result<string, PlanError>)
      modifies this`cursor
      ensures old(cursor) < |claims| && claims[old(cursor)].port.Some? ==>
                r == Ok(claims[old(cursor)].port.value) && cursor == old(cursor) + 1
      ensures r.Ok? ==>
                && old(cursor) < cursor <= |claims|
                && claims[cursor - 1].port == Some(r.value)
                && forall k | old(cursor) <= k < cursor - 1 :: claims[k].port.None? && !claims[k].required
      ensures r.Err? ==> forall k | old(cursor) <= k < |claims| && claims[k].port.Some? ::
                exists l | old(cursor) <= l < k :: claims[l].port.None? && claims[l].required
    {
      while cursor < |claims|
        invariant old(cursor) <= cursor && (cursor <= |claims| || cursor == old(cursor))
        invariant forall k | old(cursor) <= k < cursor :: claims[k].port.None? && !claims[k].required
      {
        var claim := claims[cursor];
        cursor := cursor + 1;
        if claim.port.Some? { return Ok(claim.port.value); }
        if claim.required { break; }
      }
      return Err(NoSuchPort("the bridge plan", direction, "one more port"));
    }

    /** The next assignment when the claim at the cursor is optional. */
    method TakeOptional() returns (r: Option<string>)
      modifies this`cursor
      ensures old(cursor) < |claims| && !claims[old(cursor)].required ==>
                r == claims[old(cursor)].port && cursor == old(cursor) + 1
      ensures old(cursor) >= |claims| || claims[old(cursor)].required ==> r == None && cursor == old(cursor)
    {
      if cursor >= |claims| || claims[cursor].required { return None; }
      cursor := cursor + 1;
      return claims[cursor - 1].port;
    }
  }
}
