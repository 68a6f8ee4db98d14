/** Generic sequence helpers shared by the models: Python's `[x] * k` and "the first item that …". */
module Sequences {
  import opened Optional

  /** `[x] * k`. */
  function Repeat<T>(x: T, k: nat): (r: seq<T>)
    ensures |r| == k
    ensures forall i :: 0 <= i < k ==> r[i] == x
  {
    if k == 0 then [] else [x] + Repeat(x, k - 1)
  }

  /** The position of the first element satisfying `p`, as a `for` loop with an early `return` finds it. */
  function FirstIndex<T>(s: seq<T>, p: T -> bool): (r: Option<nat>)
    ensures r.Some? ==> r.value < |s| && p(s[r.value])
    ensures r.Some? ==> forall i :: 0 <= i < r.value ==> !p(s[i])
    ensures r.None? <==> forall i :: 0 <= i < |s| ==> !p(s[i])
  {
    if s == [] then None
    else if p(s[0]) then Some(0)
    else
      match FirstIndex(s[1..], p)
      case None => None
      case Some(k) => Some(k + 1)
  }
}
