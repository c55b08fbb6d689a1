/** Request identities, and how an endpoint mints its own. */
module Correlation {

  /** Sixteen octets read as one big-endian number, so that numeric order is the
      octet order a `BTreeMap` keyed by them iterates in. */
  type Octets16 = nat

  type Guid = Octets16

  type GoalId = Octets16

  datatype Identity = Identity(writer: Guid, sequence: int)

  /** The most goals an action endpoint tracks. */
  const MaxGoals := 64

  const I64Max: int := 0x7fff_ffff_ffff_ffff

  /** The sequence counter after `n` requests have been minted. */
  function Counter(n: nat): int {
    if n + 1 <= I64Max then n + 1 else I64Max
  }

  /** The counter moves by a saturating increment. */
  function Advance(next: int): int {
    if next < I64Max then next + 1 else next
  }

  lemma CounterAdvances(n: nat)
    ensures Advance(Counter(n)) == Counter(n + 1)
  {}

  /** The identity of the request minted `k`-th, counting from 0. */
  function Minted(guid: Guid, k: nat): Identity {
    Identity(guid, Counter(k))
  }

  /** No two of the first `n` requests share an identity exactly as long as the
      counter has not been asked to pass the largest 64-bit integer. */
  lemma MintedDistinctExactlyWhen(guid: Guid, n: nat)
    ensures (forall i: nat, j: nat | i < j < n :: Minted(guid, i) != Minted(guid, j)) <==> n <= I64Max
  {
    if n > I64Max {
      assert Minted(guid, I64Max - 1) == Minted(guid, I64Max);
    }
  }

  predicate IsFirst(m: Octets16, s: set<Octets16>) {
    m in s && forall x | x in s :: m <= x
  }

  lemma {:induction false} FirstExists(s: set<Octets16>)
    requires s != {}
    ensures exists m :: IsFirst(m, s)
  {
    var a :| a in s;
    if s == {a} {
      assert IsFirst(a, s);
    } else {
      FirstExists(s - {a});
      var m :| IsFirst(m, s - {a});
      var least := if a < m then a else m;
      forall x | x in s ensures least <= x { assert x == a || x in s - {a}; }
      assert IsFirst(least, s);
    }
  }

  /** The first key of an ordered table. */
  function First(s: set<Octets16>): (m: Octets16)
    requires s != {}
    ensures IsFirst(m, s)
  {
    FirstExists(s);
    var m :| IsFirst(m, s); m
  }

  lemma SizeAfterRemove<K, V>(m: map<K, V>, k: K)
    ensures |m - {k}| == |m| - if k in m then 1 else 0
  {
    if k in m { assert m.Keys == (m - {k}).Keys + {k}; } else { assert m - {k} == m; }
  }

  lemma SizeAfterInsert<K, V>(m: map<K, V>, k: K, v: V)
    ensures |m[k := v]| == |m| + if k in m then 0 else 1
  {
    assert m[k := v].Keys == m.Keys + {k};
  }
}
