/** `Array.prototype.filter`, `map` and `slice(0, n)` over sequences. */
module Seqs {

  /** `s.filter(p)`: the elements of `s` that satisfy `p`, in their original order. */
  function Filter<T>(s: seq<T>, p: T -> bool): (r: seq<T>)
    ensures |r| <= |s|
    ensures forall i :: 0 <= i < |r| ==> p(r[i]) && r[i] in s
    ensures forall i :: 0 <= i < |s| && p(s[i]) ==> s[i] in r
  {
    if s == [] then []
    else if p(s[0]) then [s[0]] + Filter(s[1..], p)
    else Filter(s[1..], p)
  }

  /** Filtering works piece by piece, so the kept elements stay in their original order. */
  lemma {:induction false} FilterAppend<T>(a: seq<T>, b: seq<T>, p: T -> bool)
    ensures Filter(a + b, p) == Filter(a, p) + Filter(b, p)
  {
    if a != [] {
      assert (a + b)[0] == a[0];
      assert (a + b)[1..] == a[1..] + b;
      FilterAppend(a[1..], b, p);
    } else {
      assert a + b == b;
    }
  }

  /** `s.map(f)`. */
  function Map<T, U>(s: seq<T>, f: T -> U): (r: seq<U>)
    ensures |r| == |s|
    ensures forall i :: 0 <= i < |s| ==> r[i] == f(s[i])
    ensures forall x :: x in s ==> f(x) in r
  {
    if s == [] then [] else [f(s[0])] + Map(s[1..], f)
  }

  /** Mapping works piece by piece. */
  lemma {:induction false} MapAppend<T, U>(a: seq<T>, b: seq<T>, f: T -> U)
    ensures Map(a + b, f) == Map(a, f) + Map(b, f)
  {
    if a != [] {
      assert (a + b)[0] == a[0];
      assert (a + b)[1..] == a[1..] + b;
      MapAppend(a[1..], b, f);
    } else {
      assert a + b == b;
    }
  }

  /**
   * `s.map(f).filter(p)` over the first `k` elements comes before the same
   * over the rest: what is kept follows the order of `s`.
   */
  lemma FilterMapSplit<T, U>(s: seq<T>, k: nat, f: T -> U, p: U -> bool)
    requires k <= |s|
    ensures Filter(Map(s, f), p) == Filter(Map(s[..k], f), p) + Filter(Map(s[k..], f), p)
  {
    assert s == s[..k] + s[k..];
    MapAppend(s[..k], s[k..], f);
    FilterAppend(Map(s[..k], f), Map(s[k..], f), p);
  }

  /** `s.slice(0, n)`. */
  function Take<T>(s: seq<T>, n: nat): (r: seq<T>)
    ensures |r| == if n < |s| then n else |s|
    ensures r == s[..|r|]
  {
    if n < |s| then s[..n] else s
  }
}
