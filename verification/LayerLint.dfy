/** The layer lint: no dependency points to a higher layer, and no cycle stays
    inside one layer. */
module LayerLint {
  import opened Wrappers
  import opened Collections
  import opened DependencyGraph
  import opened Workspace

  type Layer = nat

  datatype Violation =
    | Upward(dependent: string, dependentLayer: Layer, dependency: string, dependencyLayer: Layer)
    | SidewaysCycle(cycle: seq<string>)

  /** The layer table; a later row for the same crate wins. */
  function LayerOf(layers: seq<(string, Layer)>): map<string, Layer> {
    if layers == [] then map[]
    else
      var (name, layer) := layers[|layers| - 1];
      LayerOf(layers[..|layers| - 1])[name := layer]
  }

  /** Edges between layered crates, whatever the layers. */
  ghost function LayeredGraph(members: seq<Member>, layerOf: map<string, Layer>): Graph {
    map n | n in Names(members) && n in layerOf :: set d | d in layerOf && Edge(members, n, d)
  }

  ghost function SameLayerGraph(members: seq<Member>, layerOf: map<string, Layer>): Graph {
    map n | n in Names(members) && n in layerOf ::
      set d | d in layerOf && layerOf[d] == layerOf[n] && Edge(members, n, d)
  }

  ghost predicate UpwardEdge(members: seq<Member>, layerOf: map<string, Layer>, n: string, d: string) {
    n in layerOf && d in layerOf && Edge(members, n, d) && layerOf[d] > layerOf[n]
  }

  /** What a lint run reports. */
  ghost predicate LintSpec(members: seq<Member>, layerOf: map<string, Layer>, violations: seq<Violation>) {
    && (forall n, d | UpwardEdge(members, layerOf, n, d) :: Upward(n, layerOf[n], d, layerOf[d]) in violations)
    && (forall v | v in violations ::
          match v
          case Upward(n, nl, d, dl) => UpwardEdge(members, layerOf, n, d) && layerOf[n] == nl && layerOf[d] == dl
          case SidewaysCycle(c) => Cycle(SameLayerGraph(members, layerOf), c))
    && (!Acyclic(SameLayerGraph(members, layerOf)) ==> exists c :: SidewaysCycle(c) in violations)
  }

  // ------------------------------------------------------------ depth-first

  type Adjacency = map<string, seq<string>>

  function GraphOf(adjacency: Adjacency): Graph {
    map n | n in adjacency :: set d | d in adjacency[n]
  }

  ghost function Nodes(g: Graph): set<string> {
    g.Keys + set n, d | n in g && d in g[n] :: d
  }

  /** The walk under way: distinct crates none of which is done, each an edge
      from the one before, `node` being the next. */
  ghost predicate Exploring(g: Graph, done: set<string>, path: seq<string>, node: string) {
    && Walk(g, path + [node])
    && node in Nodes(g)
    && Elements(path) <= Nodes(g)
    && Elements(path) !! done
    && Grounded(g, done)
  }

  lemma ExploreOn(g: Graph, done: set<string>, path: seq<string>, next: string)
    requires path != [] && Walk(g, path) && Elements(path) <= Nodes(g) && Elements(path) !! done && Grounded(g, done)
    requires next in Succ(g, path[|path| - 1])
    ensures Exploring(g, done, path, next)
  {}

  lemma ClosesCycle(g: Graph, path: seq<string>, node: string, pos: nat)
    requires Walk(g, path + [node]) && pos < |path| && path[pos] == node
    ensures Cycle(g, path[pos..] + [node])
  {
    var c, p := path[pos..] + [node], path + [node];
    forall i | 0 <= i < |c| - 1 ensures c[i + 1] in Succ(g, c[i]) {
      assert p[pos + i + 1] in Succ(g, p[pos + i]);
    }
  }

  /** The depth-first walk: a closed walk of edges, or proof that none can be
      reached from `node`. */
  method Visit(adjacency: Adjacency, ghost g: Graph, done: set<string>, path: seq<string>, node: string)
    returns (cycle: Option<seq<string>>, done': set<string>)
    requires g == GraphOf(adjacency) && Exploring(g, done, path, node)
    ensures cycle.Some? ==> Cycle(g, cycle.value)
    ensures cycle.None? ==> Grounded(g, done') && done + {node} <= done' && Elements(path) !! done'
    decreases Nodes(g) - Elements(path)
  {
    var pos := Position(path, node);
    if pos.Some? {
      ClosesCycle(g, path, node, pos.value);
      return Some(path[pos.value..] + [node]), done;
    }
    if node in done {
      return None, done;
    }
    var path' := path + [node];
    ElementsSnoc(path, node);
    done' := done;
    if node in adjacency {
      var neighbors := adjacency[node];
      var i := 0;
      while i < |neighbors|
        invariant 0 <= i <= |neighbors|
        invariant Grounded(g, done') && done <= done' && Elements(path') !! done'
        invariant forall k | 0 <= k < i :: neighbors[k] in done'
      {
        ExploreOn(g, done', path', neighbors[i]);
        cycle, done' := Visit(adjacency, g, done', path', neighbors[i]);
        if cycle.Some? { return cycle, done'; }
        i := i + 1;
      }
    }
    GroundedExtend(g, done', node);
    return None, done' + {node};
  }

  // ------------------------------------------------------- building the graph

  predicate Has(adjacency: Adjacency, n: string, d: string) {
    n in adjacency && d in adjacency[n]
  }

  predicate SharesLayer(layerOf: map<string, Layer>, n: string, d: string) {
    n in layerOf && d in layerOf && layerOf[d] == layerOf[n]
  }

  /** Push the same-layer edges of one manifest table of `name`. */
  method PushEdges(adjacency: Adjacency, layerOf: map<string, Layer>, name: string, edges: set<string>)
    returns (adjacency': Adjacency)
    ensures forall n, d :: Has(adjacency', n, d) <==>
              Has(adjacency, n, d) || (n == name && d in edges && d != name && SharesLayer(layerOf, name, d))
  {
    adjacency' := adjacency;
    var rest := edges;
    while rest != {}
      invariant rest <= edges
      invariant forall n, d :: Has(adjacency', n, d) <==>
                  Has(adjacency, n, d) || (n == name && d in edges - rest && d != name && SharesLayer(layerOf, name, d))
      decreases rest
    {
      var dependency :| dependency in rest;
      rest := rest - {dependency};
      if dependency != name && SharesLayer(layerOf, name, dependency) {
        var known := if name in adjacency' then adjacency'[name] else [];
        var more := known + [dependency];
        assert forall d :: d in more <==> d in known || d == dependency;
        ghost var before := adjacency';
        adjacency' := adjacency'[name := more];
        assert forall n, d :: Has(adjacency', n, d) <==> Has(before, n, d) || (n == name && d == dependency);
      }
    }
  }

  method SameLayerEdges(members: seq<Member>, layerOf: map<string, Layer>) returns (adjacency: Adjacency)
    ensures forall n, d :: Has(adjacency, n, d) <==> SharesLayer(layerOf, n, d) && Edge(members, n, d)
  {
    adjacency := map[];
    var i := 0;
    while i < |members|
      invariant 0 <= i <= |members|
      invariant forall n, d :: Has(adjacency, n, d) <==> SharesLayer(layerOf, n, d) && Edge(members[..i], n, d)
    {
      var member := members[i];
      EdgeSnoc(members[..i], member);
      assert members[..i + 1] == members[..i] + [member];
      adjacency := PushEdges(adjacency, layerOf, member.name, member.dependencies);
      adjacency := PushEdges(adjacency, layerOf, member.name, member.buildDependencies);
      i := i + 1;
    }
    assert members[..i] == members;
  }

  lemma EdgeSnoc(members: seq<Member>, m: Member)
    ensures forall n, d ::
            Edge(members + [m], n, d) <==> Edge(members, n, d) || (n == m.name && n != d && Declares(m, d))
  {
    forall n, d
      ensures Edge(members + [m], n, d) <==> Edge(members, n, d) || (n == m.name && n != d && Declares(m, d))
    {
      assert m in members + [m];
    }
  }

  /** Search from every crate that has an edge, in any order. */
  method FindSameLayerCycle(members: seq<Member>, layerOf: map<string, Layer>) returns (cycle: Option<seq<string>>)
    ensures cycle.Some? <==> !Acyclic(SameLayerGraph(members, layerOf))
    ensures cycle.Some? ==> Cycle(SameLayerGraph(members, layerOf), cycle.value)
  {
    var adjacency := SameLayerEdges(members, layerOf);
    ghost var g := GraphOf(adjacency);
    SameWalks(members, layerOf, adjacency);
    var done: set<string> := {};
    var starts := adjacency.Keys;
    while starts != {}
      invariant Grounded(g, done) && adjacency.Keys <= done + starts
      decreases starts
    {
      var start :| start in starts;
      starts := starts - {start};
      if start in done { continue; }
      assert Elements<string>([]) == {};
      cycle, done := Visit(adjacency, g, done, [], start);
      if cycle.Some? { return; }
    }
    assert forall c | |c| >= 2 && Walk(g, c) :: c[0 + 1] in Succ(g, c[0]);
    return None;
  }

  /** The table holds exactly the same-layer edges, so the walks agree. */
  lemma SameWalks(members: seq<Member>, layerOf: map<string, Layer>, adjacency: Adjacency)
    requires forall n, d :: Has(adjacency, n, d) <==> SharesLayer(layerOf, n, d) && Edge(members, n, d)
    ensures forall c :: Cycle(GraphOf(adjacency), c) <==> Cycle(SameLayerGraph(members, layerOf), c)
  {
    var g, h := GraphOf(adjacency), SameLayerGraph(members, layerOf);
    forall n ensures Succ(g, n) == Succ(h, n) {
      assert forall d :: d in Succ(g, n) <==> Has(adjacency, n, d);
    }
  }

  // ------------------------------------------------------------------- lint

  /** The upward edges among one manifest table of `member`. */
  method UpwardAmong(member: Member, edges: set<string>, layerOf: map<string, Layer>) returns (found: seq<Violation>)
    requires member.name in layerOf
    ensures forall v :: v in found <==>
              exists d :: d in edges && d != member.name && d in layerOf && layerOf[d] > layerOf[member.name]
                       && v == Upward(member.name, layerOf[member.name], d, layerOf[d])
  {
    found := [];
    var rest := edges;
    while rest != {}
      invariant rest <= edges
      invariant forall v :: v in found <==>
                  exists d :: d in edges - rest && d != member.name && d in layerOf && layerOf[d] > layerOf[member.name]
                           && v == Upward(member.name, layerOf[member.name], d, layerOf[d])
      decreases rest
    {
      var dependency :| dependency in rest;
      rest := rest - {dependency};
      if dependency != member.name && dependency in layerOf && layerOf[dependency] > layerOf[member.name] {
        found := found + [Upward(member.name, layerOf[member.name], dependency, layerOf[dependency])];
      }
    }
  }

  method UpwardEdges(members: seq<Member>, layerOf: map<string, Layer>) returns (found: seq<Violation>)
    ensures forall n, d | UpwardEdge(members, layerOf, n, d) :: Upward(n, layerOf[n], d, layerOf[d]) in found
    ensures forall v | v in found :: v.Upward? && UpwardEdge(members, layerOf, v.dependent, v.dependency)
                                  && layerOf[v.dependent] == v.dependentLayer
                                  && layerOf[v.dependency] == v.dependencyLayer
  {
    found := [];
    var i := 0;
    while i < |members|
      invariant 0 <= i <= |members|
      invariant forall n, d | UpwardEdge(members[..i], layerOf, n, d) :: Upward(n, layerOf[n], d, layerOf[d]) in found
      invariant forall v | v in found :: v.Upward? && UpwardEdge(members[..i], layerOf, v.dependent, v.dependency)
                                      && layerOf[v.dependent] == v.dependentLayer
                                      && layerOf[v.dependency] == v.dependencyLayer
    {
      var member := members[i];
      EdgeSnoc(members[..i], member);
      assert members[..i + 1] == members[..i] + [member];
      i := i + 1;
      if member.name !in layerOf { continue; }
      var regular := UpwardAmong(member, member.dependencies, layerOf);
      var build := UpwardAmong(member, member.buildDependencies, layerOf);
      found := found + regular + build;
    }
    assert members[..i] == members;
  }

  method Lint(members: seq<Member>, layers: seq<(string, Layer)>) returns (violations: seq<Violation>)
    ensures LintSpec(members, LayerOf(layers), violations)
    ensures violations == [] <==>
              (forall n, d :: !UpwardEdge(members, LayerOf(layers), n, d))
                && Acyclic(LayeredGraph(members, LayerOf(layers)))
  {
    var layerOf := LayerOf(layers);
    violations := UpwardEdges(members, layerOf);
    var cycle := FindSameLayerCycle(members, layerOf);
    if cycle.Some? {
      violations := violations + [SidewaysCycle(cycle.value)];
    }
    CleanIffAcyclic(members, layerOf, violations);
  }

  /** Along a walk with no upward edge the layer never rises. */
  lemma {:induction false} LayersDescend(members: seq<Member>, layerOf: map<string, Layer>, p: seq<string>, i: nat,
                                         j: nat)
    requires forall n, d :: !UpwardEdge(members, layerOf, n, d)
    requires Walk(LayeredGraph(members, layerOf), p) && i <= j < |p| && |p| >= 2
    ensures p[i] in layerOf && p[j] in layerOf && layerOf[p[j]] <= layerOf[p[i]]
  {
    var g := LayeredGraph(members, layerOf);
    if i == j {
      if i + 1 < |p| { assert p[i + 1] in Succ(g, p[i]); } else { assert p[i - 1 + 1] in Succ(g, p[i - 1]); }
    } else {
      LayersDescend(members, layerOf, p, i, j - 1);
      assert p[j - 1 + 1] in Succ(g, p[j - 1]);
      assert !UpwardEdge(members, layerOf, p[j - 1], p[j]);
    }
  }

  /** With no upward edge, every cycle of the layered graph stays in one layer. */
  lemma CycleStaysInLayer(members: seq<Member>, layerOf: map<string, Layer>, c: seq<string>)
    requires forall n, d :: !UpwardEdge(members, layerOf, n, d)
    requires Cycle(LayeredGraph(members, layerOf), c)
    ensures Cycle(SameLayerGraph(members, layerOf), c)
  {
    forall i | 0 <= i < |c| - 1 ensures c[i + 1] in Succ(SameLayerGraph(members, layerOf), c[i]) {
      assert c[i + 1] in Succ(LayeredGraph(members, layerOf), c[i]);
      LayersDescend(members, layerOf, c, 0, i);
      LayersDescend(members, layerOf, c, i, i + 1);
      LayersDescend(members, layerOf, c, i + 1, |c| - 1);
    }
  }

  lemma SameLayerIsLayered(members: seq<Member>, layerOf: map<string, Layer>, c: seq<string>)
    requires Cycle(SameLayerGraph(members, layerOf), c)
    ensures Cycle(LayeredGraph(members, layerOf), c)
  {
    forall i | 0 <= i < |c| - 1 ensures c[i + 1] in Succ(LayeredGraph(members, layerOf), c[i]) {
      assert c[i + 1] in Succ(SameLayerGraph(members, layerOf), c[i]);
    }
  }

  /** A report without violations: no upward edge, and no cycle anywhere in the
      layered graph, not just inside a layer. */
  lemma CleanIffAcyclic(members: seq<Member>, layerOf: map<string, Layer>, violations: seq<Violation>)
    requires LintSpec(members, layerOf, violations)
    ensures violations == [] <==>
              (forall n, d :: !UpwardEdge(members, layerOf, n, d)) && Acyclic(LayeredGraph(members, layerOf))
  {
    if violations == [] {
      forall c ensures !Cycle(LayeredGraph(members, layerOf), c) {
        if Cycle(LayeredGraph(members, layerOf), c) { CycleStaysInLayer(members, layerOf, c); }
      }
    } else {
      var v := violations[0];
      assert v in violations;
      if v.SidewaysCycle? { SameLayerIsLayered(members, layerOf, v.cycle); }
    }
  }

  // --------------------------------------------------- the lint and the order

  function Publishable(members: seq<Member>): seq<Member> {
    if members == [] then []
    else (if members[0].publish then [members[0]] else []) + Publishable(members[1..])
  }

  lemma {:induction false} PublishableMembers(members: seq<Member>)
    ensures forall m :: m in Publishable(members) <==> m in members && m.publish
  {
    if members != [] {
      PublishableMembers(members[1..]);
      assert members == [members[0]] + members[1..];
    }
  }

  /** A clean lint that covers every publishable crate guarantees a publish
      order: the dry run never stops on `CyclicDependencies`. */
  lemma CleanLintPublishes(members: seq<Member>, layerOf: map<string, Layer>, violations: seq<Violation>,
                           r: OrderResult)
    requires LintSpec(members, layerOf, violations) && violations == []
    requires forall m | m in members && m.publish :: m.name in layerOf
    requires |Names(Publishable(members))| == |Publishable(members)|
    requires OrderSpec(Publishable(members), r)
    ensures r.Ordered?
  {
    CleanIffAcyclic(members, layerOf, violations);
    PublishableMembers(members);
    var g, h := InternalGraph(Publishable(members)), LayeredGraph(members, layerOf);
    forall c ensures !Cycle(g, c) {
      if Cycle(g, c) {
        forall i | 0 <= i < |c| - 1 ensures c[i + 1] in Succ(h, c[i]) {
          assert c[i + 1] in Succ(g, c[i]);
        }
        assert Cycle(h, c);
      }
    }
    assert g.Keys == Names(Publishable(members));
  }
}
