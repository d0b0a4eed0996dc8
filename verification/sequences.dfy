/** Order-preserving sequence operations shared by the handlers and the
    search bar: prefixes (`limit`, `slice(0, n)`) and subsequences
    (`filter`). */
module Sequences {

  /** `xs.slice(0, n)`, and the store's `limit(n)` over an ordered result:
      the first `n` elements, or all of them when there are fewer. */
  function Take<T>(xs: seq<T>, n: nat): (r: seq<T>)
    ensures |r| == if |xs| <= n then |xs| else n
    ensures r == xs[..|r|]
  {
    if |xs| <= n then xs else xs[..n]
  }

  /** `a` is `b` with some elements removed, order kept. */
  predicate IsSubsequence<T(==)>(a: seq<T>, b: seq<T>)
    decreases |b|
  {
    |a| == 0 || (|b| > 0 && if a[0] == b[0] then IsSubsequence(a[1..], b[1..]) else IsSubsequence(a, b[1..]))
  }
}
