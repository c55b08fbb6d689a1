/** The types shared by the model. */
module Wrappers {

  datatype Option<+T> = None | Some(value: T)

  datatype Result<+T, +E> = Ok(value: T) | Err(error: E)

  type Octet = x: int | 0 <= x < 256

  /** The first position of `x` in `s`. */
  method Position<T(==)>(s: seq<T>, x: T) returns (pos: Option<nat>)
    ensures pos.Some? ==> pos.value < |s| && s[pos.value] == x && forall k | 0 <= k < pos.value :: s[k] != x
    ensures pos.None? ==> x !in s
  {
    for i := 0 to |s|
      invariant forall k | 0 <= k < i :: s[k] != x
    {
      if s[i] == x { return Some(i); }
    }
    return None;
  }

  lemma InSnoc<T>(s: seq<T>, x: T)
    ensures forall y :: y in s + [x] <==> y in s || y == x
  {}
}
