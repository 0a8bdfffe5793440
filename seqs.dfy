/** `Array.prototype.filter` and the in-order subsequence it produces. */
module Seqs {
  import opened Wrappers

  /** `r` is obtained from `s` by deleting elements, keeping the order of the rest. */
  ghost predicate IsSubsequence<T>(r: seq<T>, s: seq<T>)
    decreases |s|
  {
    if r == [] then true
    else if s == [] then false
    else (r[0] == s[0] && IsSubsequence(r[1..], s[1..])) || IsSubsequence(r, s[1..])
  }

  /** Number of elements of `s` that satisfy `p`. */
  function Count<T>(s: seq<T>, p: T -> bool): nat
  {
    if s == [] then 0 else (if p(s[0]) then 1 else 0) + Count(s[1..], p)
  }

  /** `s.filter(p)` */
  function Filter<T(!new)>(s: seq<T>, p: T -> bool): (r: seq<T>)
    ensures |r| == Count(s, p) <= |s|
    ensures forall x :: x in r <==> x in s && p(x)
    ensures IsSubsequence(r, s)
  {
    if s == [] then []
    else
      var rest := Filter(s[1..], p);
      assert forall x :: x in s <==> x == s[0] || x in s[1..];
      if p(s[0]) then
        assert ([s[0]] + rest)[1..] == rest;
        [s[0]] + rest
      else
        SubsequenceOfTail(rest, s);
        rest
  }

  lemma SubsequenceOfTail<T>(r: seq<T>, s: seq<T>)
    requires s != [] && IsSubsequence(r, s[1..])
    ensures IsSubsequence(r, s)
  {
  }

  /** Filtering keeps every element that satisfies the predicate, wherever it stands. */
  lemma {:induction false} FilterAppend<T(!new)>(a: seq<T>, b: seq<T>, p: T -> bool)
    ensures Filter(a + b, p) == Filter(a, p) + Filter(b, p)
  {
    if a != [] {
      assert (a + b)[1..] == a[1..] + b;
      FilterAppend(a[1..], b, p);
    } else {
      assert a + b == b;
    }
  }

  /** Filtering by a stronger predicate after a weaker one is filtering by the stronger one alone. */
  lemma {:induction false} FilterNarrower<T(!new)>(s: seq<T>, p: T -> bool, q: T -> bool)
    requires forall x :: q(x) ==> p(x)
    ensures Filter(Filter(s, p), q) == Filter(s, q)
  {
    if s != [] {
      FilterNarrower(s[1..], p, q);
      if p(s[0]) {
        assert ([s[0]] + Filter(s[1..], p))[1..] == Filter(s[1..], p);
      }
    }
  }

  /** A filter whose predicate holds everywhere keeps the whole sequence. */
  lemma {:induction false} FilterAll<T(!new)>(s: seq<T>, p: T -> bool)
    requires forall i :: 0 <= i < |s| ==> p(s[i])
    ensures Filter(s, p) == s
  {
    if s != [] {
      assert forall i :: 1 <= i < |s| ==> s[1..][i - 1] == s[i];
      FilterAll(s[1..], p);
    }
  }

  /** Two predicates that agree on every element filter alike. */
  lemma {:induction false} FilterSame<T(!new)>(s: seq<T>, p: T -> bool, q: T -> bool)
    requires forall i :: 0 <= i < |s| ==> p(s[i]) == q(s[i])
    ensures Filter(s, p) == Filter(s, q)
  {
    if s != [] {
      assert forall i :: 1 <= i < |s| ==> s[1..][i - 1] == s[i];
      FilterSame(s[1..], p, q);
    }
  }

  /** The index of the first element on which `f` throws, or `|s|` when it throws on none. */
  function FirstThrow<T, E>(s: seq<T>, f: T -> Result<bool, E>): (i: nat)
    ensures i <= |s|
    ensures forall j :: 0 <= j < i ==> f(s[j]).Ok?
    ensures i < |s| ==> f(s[i]).Err?
  {
    if s == [] then 0
    else if f(s[0]).Err? then 0
    else
      var k := FirstThrow(s[1..], f);
      assert forall j :: 1 <= j < |s| ==> s[1..][j - 1] == s[j];
      1 + k
  }

  /** The elements a callback that may throw accepts without throwing. */
  function Accepts<T, E>(f: T -> Result<bool, E>): T -> bool
  {
    (x: T) => f(x).Ok? && f(x).value
  }

  /**
    `s.filter(f)` for a callback that may throw: the elements it accepts, in
    order, or the first throw, which ends the filter.
  */
  function TryFilter<T(!new), E>(s: seq<T>, f: T -> Result<bool, E>): (r: Result<seq<T>, E>)
    ensures r.Ok? <==> forall i :: 0 <= i < |s| ==> f(s[i]).Ok?
    ensures r.Ok? ==> r.value == Filter(s, Accepts(f))
    ensures r.Err? ==> FirstThrow(s, f) < |s| && r.error == f(s[FirstThrow(s, f)]).error
  {
    if s == [] then Ok([])
    else
      assert forall i :: 1 <= i < |s| ==> s[1..][i - 1] == s[i];
      match f(s[0])
      case Err(e) => Err(e)
      case Ok(b) =>
        match TryFilter(s[1..], f)
        case Err(e) => Err(e)
        case Ok(rest) => Ok(if b then [s[0]] + rest else rest)
  }
}
