/**
 * The few SINQ sequence operators the proxy uses (`skip`, `take`, `any`,
 * `concat`). SINQ's `skip` and `take` saturate: asking for more elements
 * than there are is not an error.
 */
module Sinq {

  /** `sinq(s).skip(n)`: everything after the first `n` elements. */
  function Skip<T>(s: seq<T>, n: nat): (r: seq<T>)
    ensures |r| == if n <= |s| then |s| - n else 0
    ensures forall i :: 0 <= i < |r| ==> r[i] == s[n + i]
  {
    if n <= |s| then s[n..] else []
  }

  /** `sinq(s).take(n)`: the first `n` elements, or all of them. */
  function Take<T>(s: seq<T>, n: nat): (r: seq<T>)
    ensures |r| == if n <= |s| then n else |s|
    ensures forall i :: 0 <= i < |r| ==> r[i] == s[i]
  {
    if n <= |s| then s[..n] else s
  }

  /** Splitting `a + b` at `|a|` gives back `a` and `b`. */
  lemma TakeSkipConcat<T>(a: seq<T>, b: seq<T>)
    ensures Take(a + b, |a|) == a
    ensures Skip(a + b, |a|) == b
  {
    assert (a + b)[..|a|] == a;
    assert (a + b)[|a|..] == b;
  }

  /** `sinq(xs).any(p)`: some element satisfies `p`, tested front to back. */
  function Any<T>(xs: seq<T>, p: T -> bool): (r: bool)
    ensures r <==> exists i :: 0 <= i < |xs| && p(xs[i])
  {
    if xs == [] then false
    else if p(xs[0]) then true
    else
      var r := Any(xs[1..], p);
      assert forall i :: 1 <= i < |xs| ==> xs[i] == xs[1..][i - 1];
      r
  }
}
