/** Alignment arithmetic over stream positions, which are 64-bit `usize` values. */
module Align {
  import opened Wrappers

  const UsizeMax: nat := 0xffff_ffff_ffff_ffff

  function Pow2(k: nat): (r: nat)
    ensures r > 0
  {
    if k == 0 then 1 else 2 * Pow2(k - 1)
  }

  /** Bitwise conjunction of two numbers, bit by bit from the lowest. */
  function BitAnd(a: nat, b: nat): (r: nat)
    ensures r <= a && r <= b
  {
    if a == 0 || b == 0 then 0 else 2 * BitAnd(a / 2, b / 2) + if a % 2 == 1 && b % 2 == 1 then 1 else 0
  }

  function PaddingTo(position: nat, alignment: nat): nat {
    if alignment <= 1 then 0
    else
      var mask := alignment - 1;
      BitAnd(alignment - BitAnd(position, mask), mask)
  }

  function AlignUp(position: nat, alignment: nat): Option<nat> {
    var end := position + PaddingTo(position, alignment);
    if end <= UsizeMax then Some(end) else None
  }

  predicate IsAligned(position: nat, alignment: nat) {
    PaddingTo(position, alignment) == 0
  }

  // ------------------------------------------------------- masks are remainders

  lemma DivMod(p: nat, m: nat, q: nat, r: nat)
    requires m > 0 && r < m && p == m * q + r
    ensures p / m == q && p % m == r
  {
    var d := p / m - q;
    assert p == m * (p / m) + p % m;
    assert m * (p / m) - m * q == m * d;
    assert (d >= 1 ==> m * d >= m) && (d <= -1 ==> m * d + m <= 0);
  }

  lemma ModDouble(p: nat, m: nat)
    requires m > 0
    ensures p % (2 * m) == 2 * ((p / 2) % m) + p % 2
  {
    var q := p / 2;
    assert q == m * (q / m) + q % m;
    assert 2 * (m * (q / m)) == (2 * m) * (q / m);
    DivMod(p, 2 * m, q / m, 2 * (q % m) + p % 2);
  }

  lemma {:induction false} MaskIsRemainder(p: nat, k: nat)
    ensures BitAnd(p, Pow2(k) - 1) == p % Pow2(k)
  {
    if k == 0 {
      assert p % 1 == 0;
    } else if p > 0 {
      var m := Pow2(k - 1);
      MaskIsRemainder(p / 2, k - 1);
      ModDouble(p, m);
      assert (2 * m - 1) / 2 == m - 1 && (2 * m - 1) % 2 == 1;
    } else {
      ModDouble(0, Pow2(k - 1));
    }
  }

  // ------------------------------------------------------------ least alignment

  /** For every power of two, the mask computes the modular padding. */
  lemma PaddingIsModular(position: nat, k: nat)
    ensures var a := Pow2(k); PaddingTo(position, a) == (a - position % a) % a < a
  {
    hide Pow2, BitAnd;
    var a := Pow2(k);
    var r := position % a;
    MaskIsRemainder(position, k);
    MaskIsRemainder(a - r, k);
    if r == 0 { DivMod(a, a, 1, 0); } else { DivMod(a - r, a, 0, a - r); }
  }

  /** Reaching a multiple of `a` from `p` takes `n` exactly when `n` is congruent. */
  lemma ReachesMultiple(p: nat, a: nat, n: nat)
    requires a > 0 && n < a
    ensures (p + n) % a == 0 <==> n == (a - p % a) % a
  {
    var q, r := p / a, p % a;
    assert p == a * q + r;
    if r + n == 0 {
      DivMod(p + n, a, q, 0);
      DivMod(a, a, 1, 0);
    } else if r + n < a {
      DivMod(p + n, a, q, r + n);
      if r == 0 { DivMod(a, a, 1, 0); } else { DivMod(a - r, a, 0, a - r); }
    } else {
      assert a * (q + 1) == a * q + a;
      DivMod(p + n, a, q + 1, r + n - a);
      DivMod(a - r, a, 0, a - r);
    }
  }

  /** The padding is the least that reaches a multiple of the alignment. */
  lemma PaddingIsLeast(position: nat, k: nat, n: nat)
    ensures (position + PaddingTo(position, Pow2(k))) % Pow2(k) == 0
    ensures (position + n) % Pow2(k) == 0 ==> PaddingTo(position, Pow2(k)) <= n
    ensures IsAligned(position, Pow2(k)) <==> position % Pow2(k) == 0
  {
    var a := Pow2(k);
    PaddingIsModular(position, k);
    ReachesMultiple(position, a, PaddingTo(position, a));
    ReachesMultiple(position, a, 0);
    if n < a { ReachesMultiple(position, a, n); }
  }

  /** The first multiple of the alignment at or above a position. */
  ghost predicate LeastAligned(position: nat, alignment: nat, r: nat)
    requires alignment > 0
  {
    position <= r && r % alignment == 0 && forall other: nat | position <= other && other % alignment == 0 :: r <= other
  }

  /** `AlignUp` gives the least aligned position at or above its input, and
      nothing exactly when that position does not fit. */
  lemma AlignUpIsLeast(position: nat, k: nat, r: nat)
    requires LeastAligned(position, Pow2(k), r)
    ensures AlignUp(position, Pow2(k)) == if r <= UsizeMax then Some(r) else None
  {
    hide PaddingTo;
    PaddingIsLeast(position, k, r - position);
  }

  lemma {:induction false} PowDivides(j: nat, k: nat, p: nat)
    requires j <= k && p % Pow2(k) == 0
    ensures p % Pow2(j) == 0
    decreases k - j
  {
    if j < k {
      var m := Pow2(j);
      PowDivides(j + 1, k, p);
      assert p == (2 * m) * (p / (2 * m));
      assert p == m * (2 * (p / (2 * m)));
      DivMod(p, m, 2 * (p / (2 * m)), 0);
    }
  }

  /** Aligning to a smaller power of two first makes no difference: reaching 8
      through 4 ends where reaching 8 directly does. */
  lemma AlignTwice(position: nat, j: nat, k: nat)
    requires j <= k
    ensures PaddingTo(position, Pow2(j)) + PaddingTo(position + PaddingTo(position, Pow2(j)), Pow2(k))
            == PaddingTo(position, Pow2(k))
    ensures AlignUp(position, Pow2(k)) == match AlignUp(position, Pow2(j))
                                          case Some(mid) => AlignUp(mid, Pow2(k))
                                          case None => None
  {
    hide PaddingTo, Pow2;
    var direct := PaddingTo(position, Pow2(k));
    var first := PaddingTo(position, Pow2(j));
    PaddingIsLeast(position, k, 0);
    PowDivides(j, k, position + direct);
    PaddingIsLeast(position, j, direct);
    PaddingIsLeast(position + first, k, direct - first);
    PaddingIsLeast(position, k, first + PaddingTo(position + first, Pow2(k)));
  }
}
