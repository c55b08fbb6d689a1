/** Dependency graphs over names: walks, cycles, and the sets from which no
    cycle can be reached. Both the publish order and the layer lint are
    stated over these. */
module DependencyGraph {

  /** Each crate mapped to the crates it depends on. */
  type Graph = map<string, set<string>>

  function Succ(g: Graph, x: string): set<string> {
    if x in g then g[x] else {}
  }

  ghost predicate Walk(g: Graph, p: seq<string>) {
    p != [] && forall i | 0 <= i < |p| - 1 :: p[i + 1] in Succ(g, p[i])
  }

  /** A closed walk of at least one edge, first crate repeated at the end. */
  ghost predicate Cycle(g: Graph, c: seq<string>) {
    |c| >= 2 && Walk(g, c) && c[0] == c[|c| - 1]
  }

  ghost predicate Acyclic(g: Graph) {
    forall c :: !Cycle(g, c)
  }

  ghost predicate OnCycle(g: Graph, x: string) {
    exists c :: Cycle(g, c) && c[0] == x
  }

  /** `x` lies on a cycle or depends, through any number of edges, on a crate
      that does. */
  ghost predicate DependsOnCycle(g: Graph, x: string) {
    exists p :: Walk(g, p) && p[0] == x && OnCycle(g, p[|p| - 1])
  }

  ghost predicate Closed(g: Graph, s: set<string>) {
    forall x {:trigger Succ(g, x)} | x in s :: Succ(g, x) <= s
  }

  /** Closed under dependencies, and no cycle starts inside. */
  ghost predicate Grounded(g: Graph, s: set<string>) {
    Closed(g, s) && forall c | Cycle(g, c) :: c[0] !in s
  }

  lemma {:induction false} WalkStaysIn(g: Graph, s: set<string>, p: seq<string>, i: nat)
    requires Closed(g, s) && Walk(g, p) && p[0] in s && i < |p|
    ensures p[i] in s
  {
    if i > 0 {
      WalkStaysIn(g, s, p, i - 1);
      assert p[i - 1 + 1] in Succ(g, p[i - 1]);
    }
  }

  /** A crate all of whose dependencies are grounded is grounded too. */
  lemma GroundedExtend(g: Graph, s: set<string>, x: string)
    requires Grounded(g, s) && Succ(g, x) <= s && x !in s
    ensures Grounded(g, s + {x})
  {
    forall c | Cycle(g, c) ensures c[0] !in s + {x} {
      if c[0] == x {
        var tail := c[1..];
        assert c[0 + 1] in Succ(g, c[0]);
        assert Walk(g, tail) by {
          forall i | 0 <= i < |tail| - 1 ensures tail[i + 1] in Succ(g, tail[i]) {
            assert c[i + 1 + 1] in Succ(g, c[i + 1]);
          }
        }
        WalkStaysIn(g, s, tail, |tail| - 1);
        assert false;
      }
    }
  }

  lemma GroundedAvoidsCycles(g: Graph, s: set<string>, x: string)
    requires Grounded(g, s) && x in s
    ensures !DependsOnCycle(g, x)
  {
    forall p | Walk(g, p) && p[0] == x ensures !OnCycle(g, p[|p| - 1]) {
      WalkStaysIn(g, s, p, |p| - 1);
    }
  }

  /** Every member of `s` has a dependency inside `s`. */
  ghost predicate Sinkless(g: Graph, s: set<string>) {
    forall x | x in s :: Succ(g, x) * s != {}
  }

  lemma {:induction false} LongWalk(g: Graph, s: set<string>, x: string, n: nat) returns (p: seq<string>)
    requires Sinkless(g, s) && x in s
    ensures Walk(g, p) && p[0] == x && |p| == n + 1
    ensures forall i | 0 <= i < |p| :: p[i] in s
  {
    if n == 0 {
      p := [x];
    } else {
      p := LongWalk(g, s, x, n - 1);
      var last := p[n - 1];
      var y :| y in Succ(g, last) * s;
      p := p + [y];
    }
  }

  lemma {:induction false} Pigeonhole(s: set<string>, p: seq<string>) returns (i: nat, j: nat)
    requires |p| > |s| && forall k | 0 <= k < |p| :: p[k] in s
    ensures i < j < |p| && p[i] == p[j]
  {
    if k :| 1 <= k < |p| && p[k] == p[0] {
      i, j := 0, k;
    } else {
      assert p[0] in s;
      i, j := Pigeonhole(s - {p[0]}, p[1..]);
      i, j := i + 1, j + 1;
    }
  }

  /** From a sinkless set every crate leads to a cycle. */
  lemma SinklessDependsOnCycle(g: Graph, s: set<string>, x: string)
    requires Sinkless(g, s) && x in s
    ensures DependsOnCycle(g, x)
  {
    var p := LongWalk(g, s, x, |s|);
    var i, j := Pigeonhole(s, p);
    var c, stem := p[i..j + 1], p[..i + 1];
    assert Cycle(g, c) by {
      forall k | 0 <= k < |c| - 1 ensures c[k + 1] in Succ(g, c[k]) {
        assert p[i + k + 1] in Succ(g, p[i + k]);
      }
    }
    assert Walk(g, stem) && stem[|stem| - 1] == p[i] == c[0];
  }
}
