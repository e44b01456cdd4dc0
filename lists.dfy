/** The array idioms the result cards use: `xs.slice(0, k)` followed by a
    "+N more" line, and `xs.filter(p).length`. */
module Lists {

  function Min(a: int, b: int): int {
    if a <= b then a else b
  }

  /** What a card shows of a list: the first items, and how many are left
      for its "+N more" line. */
  datatype Truncation<T> = Truncation(shown: seq<T>, hidden: nat)

  /** `xs.slice(0, limit)` together with `xs.length - limit` when positive. */
  function Truncate<T>(xs: seq<T>, limit: nat): (t: Truncation<T>)
    ensures |t.shown| == Min(|xs|, limit)
    ensures t.shown == xs[..|t.shown|]
    ensures |t.shown| + t.hidden == |xs|
    ensures t.hidden > 0 <==> |xs| > limit
  {
    if |xs| <= limit then Truncation(xs, 0) else Truncation(xs[..limit], |xs| - limit)
  }

  /** `xs.filter(p).length`. */
  function CountWhere<T>(xs: seq<T>, p: T -> bool): (n: nat)
    ensures n <= |xs|
    ensures n == 0 <==> forall i :: 0 <= i < |xs| ==> !p(xs[i])
  {
    if xs == [] then 0 else (if p(xs[0]) then 1 else 0) + CountWhere(xs[1..], p)
  }

  /** Two filters whose predicates never hold together count at most every
      element once. */
  lemma {:induction false} DisjointCountsBounded<T>(xs: seq<T>, p: T -> bool, q: T -> bool)
    requires forall x :: !(p(x) && q(x))
    ensures CountWhere(xs, p) + CountWhere(xs, q) <= |xs|
  {
    if xs != [] {
      DisjointCountsBounded(xs[1..], p, q);
    }
  }
}
