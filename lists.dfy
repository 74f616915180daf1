/** Sequence helpers shared by every phase: the source rebuilds each entity
    list with an order-preserving `filter`, which these predicates describe. */
module Lists {

  datatype Option<T> = None | Some(value: T)

  function Front<T>(s: seq<T>): (r: seq<T>)
    requires |s| > 0
    ensures |r| == |s| - 1
  {
    s[..|s| - 1]
  }

  function Last<T>(s: seq<T>): T
    requires |s| > 0
  {
    s[|s| - 1]
  }

  lemma FrontLast<T>(s: seq<T>)
    requires |s| > 0
    ensures Front(s) + [Last(s)] == s
  {
  }

  /** The elements of `o`, as a list of length zero or one. */
  function Elements<T>(o: Option<T>): seq<T>
  {
    if o.Some? then [o.value] else []
  }

  /** `a` is an order-preserving subsequence of `b`, where each kept element of `a`
      stands in relation `rel` to the element of `b` it came from. */
  ghost predicate Embeds<T>(a: seq<T>, b: seq<T>, rel: (T, T) -> bool)
    decreases |b|
  {
    if a == [] then true
    else if b == [] then false
    else (rel(Last(a), Last(b)) && Embeds(Front(a), Front(b), rel)) || Embeds(a, Front(b), rel)
  }

  lemma EmbedsKeep<T>(a: seq<T>, b: seq<T>, x: T, y: T, rel: (T, T) -> bool)
    requires Embeds(a, b, rel) && rel(x, y)
    ensures Embeds(a + [x], b + [y], rel)
  {
    assert Front(a + [x]) == a && Front(b + [y]) == b;
  }

  lemma EmbedsSkip<T>(a: seq<T>, b: seq<T>, y: T, rel: (T, T) -> bool)
    requires Embeds(a, b, rel)
    ensures Embeds(a, b + [y], rel)
  {
    assert Front(b + [y]) == b;
  }

  /** Number of elements of `s` that satisfy `p`. */
  function Count<T>(s: seq<T>, p: T -> bool): (n: nat)
    ensures n <= |s|
  {
    if s == [] then 0 else Count(Front(s), p) + (if p(Last(s)) then 1 else 0)
  }
}
