/** Option and the one iterator adaptor the tracker relies on: `position`, which
    finds the first element of a fixed table satisfying a test. */
module Iter {

  datatype Option<T> = None | Some(value: T) {
    /** `unwrap_or`: the value if there is one, otherwise the fallback. */
    function UnwrapOr(default: T): T {
      match this
      case Some(v) => v
      case None => default
    }
  }

  /** `iter().position(p)`: the index of the first element satisfying `p`, or None. */
  function Position<T>(s: seq<T>, p: T -> bool): (r: Option<nat>)
    ensures r.Some? ==> r.value < |s| && p(s[r.value])
    ensures r.Some? ==> forall j :: 0 <= j < r.value ==> !p(s[j])
    ensures r.None? ==> forall j :: 0 <= j < |s| ==> !p(s[j])
  {
    if |s| == 0 then None
    else if p(s[0]) then Some(0)
    else match Position(s[1..], p)
      case None => None
      case Some(k) => Some(k + 1)
  }

  /** `iter().position(|x| *x == v)`: the index of the first occurrence of `v`, or None. */
  function IndexOf<T(==)>(s: seq<T>, v: T): (r: Option<nat>)
    ensures r.Some? ==> r.value < |s| && s[r.value] == v
    ensures r.Some? ==> forall j :: 0 <= j < r.value ==> s[j] != v
    ensures r.None? <==> v !in s
  {
    Position(s, x => x == v)
  }

  /** In a table without repetitions, searching for an element finds exactly its index. */
  lemma IndexOfDistinct<T>(s: seq<T>, i: nat)
    requires i < |s|
    requires forall a, b :: 0 <= a < b < |s| ==> s[a] != s[b]
    ensures IndexOf(s, s[i]) == Some(i)
  {
  }
}
