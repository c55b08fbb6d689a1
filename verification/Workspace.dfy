/** The publish order of a workspace: Kahn's algorithm with alphabetical ties. */
module Workspace {
  import opened Collections
  import opened NameOrder
  import opened DependencyGraph

  /** One workspace member; dependency sets hold every key of the
      corresponding manifest table, external crates included. */
  datatype Member = Member(
    name: string,
    publish: bool,
    dependencies: set<string>,
    devDependencies: set<string>,
    buildDependencies: set<string>)

  datatype OrderResult =
    | Ordered(order: seq<string>)
    | CyclicDependencies(remaining: seq<string>)

  function Names(members: seq<Member>): set<string> {
    set m | m in members :: m.name
  }

  /** A regular or build dependency; dev-dependencies are ignored. */
  predicate Declares(m: Member, d: string) {
    d in m.dependencies || d in m.buildDependencies
  }

  predicate Edge(members: seq<Member>, n: string, d: string) {
    n != d && exists m | m in members :: m.name == n && Declares(m, d)
  }

  /** The edges internal to `members`, self-edges dropped. */
  function InternalGraph(members: seq<Member>): Graph {
    var names := Names(members);
    map n | n in names :: set d | d in names && Edge(members, n, d)
  }

  /** The crates not yet in `done` whose dependencies all are. */
  function Ready(g: Graph, done: set<string>): set<string> {
    set n | n in g && n !in done && g[n] <= done
  }

  /** A publish-safe order: every crate once, after everything it depends on. */
  ghost predicate PublishSafe(g: Graph, q: seq<string>) {
    && Elements(q) == g.Keys
    && (forall i, j | 0 <= i < j < |q| :: q[i] != q[j])
    && (forall i | 0 <= i < |q| :: g[q[i]] <= Elements(q[..i]))
  }

  /** `p` and `q` first differ at a position where `p` holds the smaller name. */
  ghost predicate Before(p: seq<string>, q: seq<string>) {
    exists k | 0 <= k < |p| && k < |q| :: p[..k] == q[..k] && Less(p[k], q[k])
  }

  /** What `TopologicalOrder` owes its caller. */
  ghost predicate OrderSpec(members: seq<Member>, r: OrderResult) {
    var g := InternalGraph(members);
    match r
    case Ordered(order) =>
      && Acyclic(g)
      && |members| == |g|
      && PublishSafe(g, order)
      && (forall q | PublishSafe(g, q) && q != order :: Before(order, q))
    case CyclicDependencies(remaining) =>
      && !(Acyclic(g) && |members| == |g|)
      && Ascending(remaining)
      && (forall x :: x in remaining <==> x in g && DependsOnCycle(g, x))
  }

  // ---------------------------------------------------------------- lemmas

  ghost predicate Inverse(g: Graph, dependents: map<string, set<string>>) {
    && dependents.Keys == g.Keys
    && forall d, n {:trigger n in dependents[d]} {:trigger d in g[n]} | d in g ::
         n in dependents[d] <==> n in g && d in g[n]
  }

  ghost predicate FirstReady(g: Graph, order: seq<string>, k: nat)
    requires k < |order|
  {
    IsLeast(order[k], Ready(g, Elements(order[..k])))
  }

  /** The crates ordered so far were each the alphabetically first ready one. */
  ghost predicate Greedy(g: Graph, order: seq<string>) {
    forall k {:trigger FirstReady(g, order, k)} | 0 <= k < |order| :: FirstReady(g, order, k)
  }

  /** What holds of the graph once the crates of `order` are out of the way. */
  ghost predicate Progress(g: Graph, order: seq<string>) {
    && (forall x | x in g :: g[x] <= g.Keys)
    && Greedy(g, order)
    && Grounded(g, Elements(order))
  }

  lemma GreedyDistinct(g: Graph, order: seq<string>)
    requires Greedy(g, order)
    ensures forall i, j | 0 <= i < j < |order| :: order[i] != order[j]
    ensures Elements(order) <= g.Keys
    ensures |Elements(order)| == |order|
  {
    forall i, j | 0 <= i < j < |order| ensures order[i] != order[j] {
      assert FirstReady(g, order, j);
      assert order[i] == order[..j][i];
      assert order[i] in Elements(order[..j]);
    }
    forall k | 0 <= k < |order| ensures order[k] in g { assert FirstReady(g, order, k); }
    DistinctSize(order);
  }

  lemma StepProgress(g: Graph, order: seq<string>, next: string)
    requires Progress(g, order) && IsLeast(next, Ready(g, Elements(order)))
    ensures Progress(g, order + [next])
  {
    var more := order + [next];
    ElementsSnoc(order, next);
    GroundedExtend(g, Elements(order), next);
    forall k | 0 <= k < |more| ensures FirstReady(g, more, k) {
      assert more[..k] == order[..k];
      if k == |order| { assert order[..k] == order; } else { assert FirstReady(g, order, k); }
    }
  }

  /** When nothing is ready, what is left is what depends on a cycle. */
  lemma StuckRemainder(g: Graph, order: seq<string>)
    requires Progress(g, order) && Ready(g, Elements(order)) == {}
    ensures forall x | x in g :: x !in Elements(order) <==> DependsOnCycle(g, x)
    ensures Acyclic(g) <==> Elements(order) == g.Keys
  {
    var left := g.Keys - Elements(order);
    assert Sinkless(g, left) by {
      forall x | x in left ensures Succ(g, x) * left != {} {
        assert x !in Ready(g, Elements(order));
        var d :| d in g[x] && d !in Elements(order);
        assert d in Succ(g, x) * left;
      }
    }
    forall x | x in g ensures x !in Elements(order) <==> DependsOnCycle(g, x) {
      if x in left { SinklessDependsOnCycle(g, left, x); } else { GroundedAvoidsCycles(g, Elements(order), x); }
    }
    GreedyDistinct(g, order);
    if left == {} {
      assert forall c | |c| >= 2 && Walk(g, c) :: c[0 + 1] in Succ(g, c[0]);
    } else {
      var x :| x in left;
      assert DependsOnCycle(g, x);
    }
  }

  lemma GreedyIsSafe(g: Graph, order: seq<string>)
    requires Progress(g, order) && Elements(order) == g.Keys
    ensures PublishSafe(g, order)
  {
    GreedyDistinct(g, order);
    forall i | 0 <= i < |order| ensures g[order[i]] <= Elements(order[..i]) {
      assert FirstReady(g, order, i);
    }
  }

  /** Always taking the alphabetically first ready crate gives the
      lexicographically first of all publish-safe orders. */
  lemma GreedyIsFirst(g: Graph, order: seq<string>, q: seq<string>)
    requires Greedy(g, order) && PublishSafe(g, order) && PublishSafe(g, q) && q != order
    ensures Before(order, q)
  {
    DistinctSize(order);
    DistinctSize(q);
    var k := FirstDifference(order, q);
    assert q[k] in Ready(g, Elements(q[..k])) by {
      assert q[k] in Elements(q);
      assert forall i | 0 <= i < k :: q[i] != q[k];
    }
    assert FirstReady(g, order, k);
  }

  lemma {:induction false} FirstDifference(p: seq<string>, q: seq<string>) returns (k: nat)
    requires |p| == |q| && p != q
    ensures k < |p| && p[..k] == q[..k] && p[k] != q[k]
  {
    k := 0;
    while p[k] == q[k]
      invariant k < |p| && p[..k] == q[..k]
      decreases |p| - k
    {
      assert p[..k + 1] == p[..k] + [p[k]] && q[..k + 1] == q[..k] + [q[k]];
      assert p == p[..|p|] && q == q[..|p|];
      k := k + 1;
    }
  }

  lemma BeforeAsymmetric(p: seq<string>, q: seq<string>)
    requires Before(p, q)
    ensures !Before(q, p)
  {
    var k :| 0 <= k < |p| && k < |q| && p[..k] == q[..k] && Less(p[k], q[k]);
    forall j | 0 <= j < |p| && j < |q| ensures !(q[..j] == p[..j] && Less(q[j], p[j])) {
      LessTrichotomy(p[k], q[k]);
      if j < k {
        assert p[j] == p[..k][j] == q[..k][j] == q[j];
        LessTrichotomy(p[j], q[j]);
      } else if j > k {
        assert p[..j][k] == p[k] && q[..j][k] == q[k];
      }
    }
  }

  // ------------------------------------------------------------- algorithm

  lemma SameGraph(g: Graph, h: Graph)
    requires g.Keys == h.Keys && forall n | n in g :: forall d :: d in g[n] <==> d in h[n]
    ensures g == h
  {
    forall n | n in g ensures g[n] == h[n] {}
  }

  ghost function Extended(g: Graph, name: string, edges: set<string>): (h: Graph)
    requires name in g
    ensures h.Keys == g.Keys
  {
    g[name := g[name] + (set d | d in edges && d in g && d != name)]
  }

  lemma ExtendedTwice(g: Graph, name: string, a: set<string>, b: set<string>)
    requires name in g
    ensures Extended(Extended(g, name, a), name, b) == Extended(g, name, a + b)
  {
    SameGraph(Extended(Extended(g, name, a), name, b), Extended(g, name, a + b));
  }

  /** How many of `deps` are not done yet. */
  ghost function Waiting(deps: set<string>, done: set<string>): nat {
    |deps - done|
  }

  /** `dependents` is `g` turned around and `indegree` its out-degrees. */
  ghost predicate Tabled(g: Graph, dependents: map<string, set<string>>, indegree: map<string, nat>) {
    && Inverse(g, dependents)
    && indegree.Keys == g.Keys
    && forall n {:trigger indegree[n]} | n in g :: indegree[n] == Waiting(g[n], {})
  }

  lemma OneMore(deps: set<string>, d: string)
    requires d !in deps
    ensures Waiting(deps + {d}, {}) == Waiting(deps, {}) + 1
  {
    assert (deps + {d}) - {} == (deps - {}) + {d};
  }

  /** Record one edge, counting it only when it is new. */
  method AddEdge(name: string, dependency: string, ghost g: Graph,
                 dependents: map<string, set<string>>, indegree: map<string, nat>)
    returns (dependents': map<string, set<string>>, indegree': map<string, nat>)
    requires name in g && Tabled(g, dependents, indegree)
    ensures Tabled(Extended(g, name, {dependency}), dependents', indegree')
  {
    hide Waiting;
    dependents', indegree' := dependents, indegree;
    if dependency == name || dependency !in dependents {
      SameGraph(g, Extended(g, name, {dependency}));
    } else if name in dependents[dependency] {
      SameGraph(g, Extended(g, name, {dependency}));
    } else {
      assert Extended(g, name, {dependency})[name] == g[name] + {dependency};
      OneMore(g[name], dependency);
      dependents' := dependents[dependency := dependents[dependency] + {name}];
      indegree' := indegree[name := indegree[name] + 1];
    }
  }

  /** Record a whole manifest table of `name`. */
  method AddEdges(name: string, edges: set<string>, ghost g: Graph,
                  dependents: map<string, set<string>>, indegree: map<string, nat>)
    returns (dependents': map<string, set<string>>, indegree': map<string, nat>)
    requires name in g && Tabled(g, dependents, indegree)
    ensures Tabled(Extended(g, name, edges), dependents', indegree')
  {
    hide Tabled;
    dependents', indegree' := dependents, indegree;
    SameGraph(g, Extended(g, name, {}));
    var rest := edges;
    ghost var seen: set<string> := {};
    while rest != {}
      invariant seen + rest == edges
      invariant Tabled(Extended(g, name, seen), dependents', indegree')
      decreases rest
    {
      var dependency :| dependency in rest;
      dependents', indegree' := AddEdge(name, dependency, Extended(g, name, seen), dependents', indegree');
      ExtendedTwice(g, name, seen, {dependency});
      rest, seen := rest - {dependency}, seen + {dependency};
    }
    assert seen == edges;
  }

  /** The edges declared by `members`, restricted to `names`. */
  ghost function EdgesAmong(names: set<string>, members: seq<Member>): Graph {
    map n | n in names :: set d | d in names && Edge(members, n, d)
  }

  lemma EdgesAmongSnoc(names: set<string>, members: seq<Member>, m: Member)
    requires m.name in names
    ensures EdgesAmong(names, members + [m])
         == Extended(Extended(EdgesAmong(names, members), m.name, m.dependencies), m.name, m.buildDependencies)
  {
    forall n, d | n in names && d in names
      ensures Edge(members + [m], n, d) <==> Edge(members, n, d) || (n == m.name && n != d && Declares(m, d))
    {
      assert m in members + [m];
    }
    SameGraph(EdgesAmong(names, members + [m]),
              Extended(Extended(EdgesAmong(names, members), m.name, m.dependencies), m.name, m.buildDependencies));
  }

  lemma TabledEmpty(names: set<string>, dependents: map<string, set<string>>, indegree: map<string, nat>)
    requires dependents.Keys == indegree.Keys == names
    requires forall n | n in names :: dependents[n] == {} && indegree[n] == 0
    ensures Tabled(EdgesAmong(names, []), dependents, indegree)
  {
    assert forall n | n in names :: EdgesAmong(names, [])[n] == {};
  }

  /** Both tables of the algorithm, built edge by edge. */
  method Tables(members: seq<Member>)
    returns (dependents: map<string, set<string>>, indegree: map<string, nat>)
    ensures Tabled(InternalGraph(members), dependents, indegree)
  {
    hide Extended, Tabled;
    var names := Names(members);
    indegree := map n | n in names :: 0;
    dependents := map n | n in names :: {};
    TabledEmpty(names, dependents, indegree);
    var i := 0;
    while i < |members|
      invariant 0 <= i <= |members|
      invariant Tabled(EdgesAmong(names, members[..i]), dependents, indegree)
    {
      var member := members[i];
      ghost var g := EdgesAmong(names, members[..i]);
      dependents, indegree := AddEdges(member.name, member.dependencies, g, dependents, indegree);
      dependents, indegree := AddEdges(member.name, member.buildDependencies,
                                       Extended(g, member.name, member.dependencies), dependents, indegree);
      EdgesAmongSnoc(names, members[..i], member);
      assert members[..i + 1] == members[..i] + [member];
      i := i + 1;
    }
    assert members[..i] == members;
  }

  /** The in-degree of every crate is the number of its dependencies not done
      yet, and the ready set holds the crates with none left. */
  ghost predicate Counts(g: Graph, done: set<string>, ready: set<string>, indegree: map<string, nat>) {
    && indegree.Keys == g.Keys
    && (forall n {:trigger indegree[n]} | n in g :: indegree[n] == Waiting(g[n], done))
    && (forall n {:trigger n in ready} :: n in ready <==> n in g && n !in done && indegree[n] == 0)
  }

  lemma CountsReady(g: Graph, done: set<string>, ready: set<string>, indegree: map<string, nat>)
    requires Counts(g, done, ready, indegree)
    ensures ready == Ready(g, done)
  {
    forall n | n in g && n !in done ensures indegree[n] == 0 <==> g[n] <= done {
      if g[n] <= done { assert g[n] - done == {}; } else { var d :| d in g[n] && d !in done; assert d in g[n] - done; }
    }
  }

  lemma StartsCounted(g: Graph, ready: set<string>, indegree: map<string, nat>)
    requires indegree.Keys == g.Keys && forall n {:trigger indegree[n]} | n in g :: indegree[n] == Waiting(g[n], {})
    requires forall n {:trigger n in ready} :: n in ready <==> n in g && indegree[n] == 0
    ensures Counts(g, {}, ready, indegree)
  {
    hide Waiting;
  }

  /** Whether `n` waits on `next` decides by how much its count drops. */
  lemma OneFewer(deps: set<string>, done: set<string>, next: string)
    requires next !in done
    ensures Waiting(deps, done) == Waiting(deps, done + {next}) + if next in deps then 1 else 0
  {
    if next in deps {
      assert deps - done == (deps - (done + {next})) + {next};
    } else {
      assert deps - done == deps - (done + {next});
    }
  }

  /** `handled` of the crates waiting on `next` have been told it is done. */
  ghost predicate Unlocking(g: Graph, next: string, handled: set<string>, ready: set<string>, ready': set<string>,
                            indegree: map<string, nat>, indegree': map<string, nat>)
  {
    && indegree.Keys == indegree'.Keys == g.Keys
    && (forall n {:trigger indegree'[n]} | n in g :: indegree[n] == indegree'[n] + if n in handled then 1 else 0)
    && (forall n {:trigger n in ready'} :: n in ready' <==>
          n in ready - {next} || (n in handled && n in g && indegree'[n] == 0))
  }

  lemma UnlockingDone(g: Graph, next: string, done: set<string>, unlocked: set<string>, ready: set<string>,
                      ready': set<string>, indegree: map<string, nat>, indegree': map<string, nat>)
    requires Closed(g, done) && Counts(g, done, ready, indegree) && next in ready
    requires forall n {:trigger n in unlocked} :: n in unlocked <==> n in g && next in g[n]
    requires Unlocking(g, next, unlocked, ready, ready', indegree, indegree')
    ensures Counts(g, done + {next}, ready', indegree')
  {
    forall n | n in g ensures indegree'[n] == Waiting(g[n], done + {next}) { OneFewer(g[n], done, next); }
    OneFewer(g[next], done, next);
    forall n ensures n in ready' <==> n in g && n !in done + {next} && indegree'[n] == 0 {
      assert n in done ==> Succ(g, n) <= done;
    }
  }

  /** Telling one more waiting crate: its count is positive, so the saturating
      subtraction never saturates, and it was not ready before. */
  lemma UnlockOne(g: Graph, next: string, done: set<string>, handled: set<string>, dependent: string,
                  ready: set<string>, ready0: set<string>, indegree: map<string, nat>, indegree0: map<string, nat>)
    requires Closed(g, done) && Counts(g, done, ready, indegree) && next in ready
    requires Unlocking(g, next, handled, ready, ready0, indegree, indegree0)
    requires dependent in g && next in g[dependent] && dependent !in handled
    ensures indegree0[dependent] > 0 && dependent !in ready0
    ensures var indegree' := indegree0[dependent := indegree0[dependent] - 1];
            Unlocking(g, next, handled + {dependent}, ready,
                      if indegree'[dependent] == 0 then ready0 + {dependent} else ready0, indegree, indegree')
  {
    hide Waiting;
    OneFewer(g[dependent], done, next);
    assert indegree0[dependent] > 0;
  }

  /** Take `next` out of the way: every crate waiting on it waits on one crate
      fewer, and those that waited on nothing else become ready. */
  method Unlock(ghost g: Graph, next: string, ghost done: set<string>, ready: set<string>,
                dependents: map<string, set<string>>, indegree: map<string, nat>)
    returns (ready': set<string>, indegree': map<string, nat>)
    requires Inverse(g, dependents) && Closed(g, done)
    requires Counts(g, done, ready, indegree) && next in ready
    ensures Counts(g, done + {next}, ready', indegree')
  {
    hide Waiting;
    ready', indegree' := ready - {next}, indegree;
    var unlocked := dependents[next];
    var rest := unlocked;
    ghost var handled: set<string> := {};
    while rest != {}
      invariant handled + rest == unlocked && handled !! rest
      invariant Unlocking(g, next, handled, ready, ready', indegree, indegree')
      decreases rest
    {
      var dependent :| dependent in rest;
      UnlockOne(g, next, done, handled, dependent, ready, ready', indegree, indegree');
      indegree' := indegree'[dependent := if indegree'[dependent] > 0 then indegree'[dependent] - 1 else 0];
      if indegree'[dependent] == 0 { ready' := ready' + {dependent}; }
      rest, handled := rest - {dependent}, handled + {dependent};
    }
    UnlockingDone(g, next, done, handled, ready, ready', indegree, indegree');
  }

  /** Order everything that can be ordered, alphabetically first ready crate first. */
  method Drain(ghost g: Graph, dependents: map<string, set<string>>, indegree0: map<string, nat>)
    returns (order: seq<string>)
    requires Tabled(g, dependents, indegree0) && forall n | n in g :: g[n] <= g.Keys
    ensures Progress(g, order) && Ready(g, Elements(order)) == {}
  {
    hide Waiting;
    var indegree := indegree0;
    var ready := set n | n in indegree && indegree[n] == 0;
    order := [];
    StartsCounted(g, ready, indegree);
    assert Elements(order) == {};
    while ready != {}
      invariant Progress(g, order)
      invariant Counts(g, Elements(order), ready, indegree)
      decreases g.Keys - Elements(order)
    {
      var next := Least(ready);
      CountsReady(g, Elements(order), ready, indegree);
      ready, indegree := Unlock(g, next, Elements(order), ready, dependents, indegree);
      StepProgress(g, order, next);
      ElementsSnoc(order, next);
      order := order + [next];
    }
    CountsReady(g, Elements(order), ready, indegree);
  }

  /** Kahn's algorithm over a sorted ready set. */
  method TopologicalOrder(members: seq<Member>) returns (r: OrderResult)
    ensures OrderSpec(members, r)
  {
    var dependents, indegree := Tables(members);
    var order := Drain(InternalGraph(members), dependents, indegree);
    if |order| == |members| {
      FinishedOrder(members, order);
      return Ordered(order);
    }
    FinishedStuck(members, order);
    var remaining := Listing(Names(members) - Elements(order));
    return CyclicDependencies(remaining);
  }

  lemma FinishedOrder(members: seq<Member>, order: seq<string>)
    requires Progress(InternalGraph(members), order) && Ready(InternalGraph(members), Elements(order)) == {}
    requires |order| == |members|
    ensures OrderSpec(members, Ordered(order))
  {
    var g := InternalGraph(members);
    CompleteIffAll(g, members, order);
    StuckRemainder(g, order);
    GreedyIsSafe(g, order);
    forall q | PublishSafe(g, q) && q != order ensures Before(order, q) { GreedyIsFirst(g, order, q); }
  }

  lemma FinishedStuck(members: seq<Member>, order: seq<string>)
    requires Progress(InternalGraph(members), order) && Ready(InternalGraph(members), Elements(order)) == {}
    requires |order| != |members|
    ensures !(Acyclic(InternalGraph(members)) && |members| == |InternalGraph(members)|)
    ensures forall x :: x in Names(members) - Elements(order)
                    <==> x in InternalGraph(members) && DependsOnCycle(InternalGraph(members), x)
  {
    var g := InternalGraph(members);
    CompleteIffAll(g, members, order);
    StuckRemainder(g, order);
  }

  lemma CompleteIffAll(g: Graph, members: seq<Member>, order: seq<string>)
    requires Greedy(g, order) && g.Keys == Names(members)
    ensures |order| == |members| <==> Elements(order) == g.Keys && |members| == |g|
  {
    GreedyDistinct(g, order);
    NamesSize(members);
    SubsetSize(Elements(order), g.Keys);
    assert |g| == |g.Keys|;
  }

  lemma {:induction false} NamesSize(members: seq<Member>)
    ensures |Names(members)| <= |members|
  {
    if members != [] {
      NamesSize(members[1..]);
      assert Names(members) == {members[0].name} + Names(members[1..]) by {
        assert members == [members[0]] + members[1..];
      }
    }
  }

  /** The answer depends on the members, not on the order they are listed in. */
  lemma ListingOrderIrrelevant(members: seq<Member>, others: seq<Member>, r: OrderResult, s: OrderResult)
    requires multiset(members) == multiset(others)
    requires OrderSpec(members, r) && OrderSpec(others, s)
    ensures r == s
  {
    assert |members| == |multiset(members)| == |others|;
    assert forall m :: m in members <==> m in multiset(members);
    assert forall m :: m in others <==> m in multiset(others);
    assert Names(members) == Names(others);
    assert forall n, d :: Edge(members, n, d) <==> Edge(others, n, d);
    SameGraph(InternalGraph(members), InternalGraph(others));
    if r.Ordered? {
      if r.order != s.order { BeforeAsymmetric(r.order, s.order); }
    } else {
      AscendingUnique(r.remaining, s.remaining);
    }
  }
}
