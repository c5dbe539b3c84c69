/** JavaScript's `Array.prototype.findIndex`, which `find` and `some` are built on. */
module Arrays {
  import opened Wrappers

  /**
   * The first index whose element satisfies `p` (JavaScript returns -1, here
   * `None`, when there is none).
   */
  function FindIndex<T>(xs: seq<T>, p: T -> bool): (r: Option<nat>)
    ensures r.Some? ==> r.value < |xs| && p(xs[r.value])
    ensures r.Some? ==> forall k :: 0 <= k < r.value ==> !p(xs[k])
    ensures r.None? ==> forall k :: 0 <= k < |xs| ==> !p(xs[k])
  {
    if xs == [] then None
    else if p(xs[0]) then Some(0)
    else match FindIndex(xs[1..], p)
      case None => None
      case Some(k) => Some(k + 1)
  }
}
