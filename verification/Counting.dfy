/** Counting the elements of a sequence that satisfy a predicate. */
module Counting {

  ghost function CountIf<T(!new)>(s: seq<T>, p: T -> bool): nat {
    if s == [] then 0 else CountIf(s[..|s| - 1], p) + if p(s[|s| - 1]) then 1 else 0
  }

  lemma CountSnoc<T(!new)>(s: seq<T>, x: T, p: T -> bool)
    ensures CountIf(s + [x], p) == CountIf(s, p) + if p(x) then 1 else 0
  {
    assert (s + [x])[..|s|] == s;
  }

  lemma {:induction false} CountAppend<T(!new)>(a: seq<T>, b: seq<T>, p: T -> bool)
    ensures CountIf(a + b, p) == CountIf(a, p) + CountIf(b, p)
  {
    if b == [] {
      assert a + b == a;
    } else {
      var init, x := b[..|b| - 1], b[|b| - 1];
      CountAppend(a, init, p);
      CountSnoc(a + init, x, p);
      assert a + b == a + init + [x];
    }
  }

  lemma {:induction false} CountsOne<T(!new)>(s: seq<T>, p: T -> bool, i: nat)
    requires i < |s| && p(s[i])
    ensures CountIf(s, p) >= 1
  {
    if i < |s| - 1 { CountsOne(s[..|s| - 1], p, i); }
  }

  lemma {:induction false} CountsTwo<T(!new)>(s: seq<T>, p: T -> bool, i: nat, j: nat)
    requires i < j < |s| && p(s[i]) && p(s[j])
    ensures CountIf(s, p) >= 2
  {
    if j < |s| - 1 { CountsTwo(s[..|s| - 1], p, i, j); } else { CountsOne(s[..|s| - 1], p, i); }
  }

  lemma {:induction false} CountsAtMostOne<T(!new)>(s: seq<T>, p: T -> bool)
    requires forall i, j | 0 <= i < j < |s| :: !(p(s[i]) && p(s[j]))
    ensures CountIf(s, p) <= 1
    ensures (forall i | 0 <= i < |s| :: !p(s[i])) ==> CountIf(s, p) == 0
  {
    if s != [] { CountsAtMostOne(s[..|s| - 1], p); }
  }
}
