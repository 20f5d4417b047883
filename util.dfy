/** `lastOf` from src/util/index.ts. */
module Util {
  import opened Wrappers

  /** `lastOf(array)`: the element at index `length - 1`, or `null` (None) for an empty array. */
  function LastOf<T>(s: seq<T>): (r: Option<T>)
    ensures r.Some? <==> |s| > 0
    ensures r.Some? ==> r.value == s[|s| - 1]
  {
    if |s| > 0 then Some(s[|s| - 1]) else None
  }

  /** After a `push(x)`, `lastOf` gives `x`; this is how the views find the view they added last. */
  lemma LastOfPush<T>(s: seq<T>, x: T)
    ensures LastOf(s + [x]) == Some(x)
  {
  }
}
