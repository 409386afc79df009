/** The optional value used wherever the source reads something that may be `undefined`. */
module Options {

  datatype Option<+T> = None | Some(value: T)

  /** JavaScript's `Array.prototype.at` for a non-negative index: the element,
      or `undefined` (here `None`) past the end of the array. */
  function At<T>(s: seq<T>, i: nat): (r: Option<T>)
    ensures r.Some? <==> i < |s|
    ensures r.Some? ==> r.value == s[i]
  {
    if i < |s| then Some(s[i]) else None
  }
}
