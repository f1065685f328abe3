/** Failure-carrying values: the model's stand-ins for `null`, thrown errors and rejected promises. */
module Wrappers {

  datatype Option<+T> = None | Some(value: T)

  /** Success or failure; a failure carries the message the source would have thrown. */
  datatype Result<+T, +E> = Ok(value: T) | Err(error: E)

  /** Keeps, in order, the elements of `s` that satisfy `p` (the source's `Array.prototype.filter`). */
  function Filter<T>(s: seq<T>, p: T -> bool): (r: seq<T>)
    ensures |r| <= |s|
    ensures forall i :: 0 <= i < |r| ==> r[i] in s && p(r[i])
    ensures forall i :: 0 <= i < |s| && p(s[i]) ==> s[i] in r
  {
    if s == [] then [] else (if p(s[0]) then [s[0]] else []) + Filter(s[1..], p)
  }

  /** Applies `f` to every element (the source's `Array.prototype.map`). */
  function Map<T, U>(s: seq<T>, f: T -> U): (r: seq<U>)
    ensures |r| == |s|
    ensures forall i :: 0 <= i < |s| ==> r[i] == f(s[i])
  {
    if s == [] then [] else [f(s[0])] + Map(s[1..], f)
  }

  lemma {:induction false} FilterAppend<T>(s: seq<T>, t: seq<T>, p: T -> bool)
    ensures Filter(s + t, p) == Filter(s, p) + Filter(t, p)
  {
    if s == [] {
      assert s + t == t;
    } else {
      assert (s + t)[1..] == s[1..] + t;
      FilterAppend(s[1..], t, p);
    }
  }

  /** Filtering is idempotent and filtering twice by the same predicate changes nothing. */
  lemma {:induction false} FilterIdempotent<T>(s: seq<T>, p: T -> bool)
    ensures Filter(Filter(s, p), p) == Filter(s, p)
  {
    if s != [] {
      var rest := Filter(s[1..], p);
      FilterIdempotent(s[1..], p);
      if p(s[0]) {
        var f := [s[0]] + rest;
        assert Filter(s, p) == f;
        assert f[0] == s[0] && f[1..] == rest;
        assert Filter(f, p) == [s[0]] + Filter(rest, p);
      } else {
        assert Filter(s, p) == rest;
      }
    }
  }

  /** A filter that keeps every element is the identity. */
  lemma {:induction false} FilterAll<T>(s: seq<T>, p: T -> bool)
    requires forall i :: 0 <= i < |s| ==> p(s[i])
    ensures Filter(s, p) == s
  {
    if s != [] {
      FilterAll(s[1..], p);
      assert [s[0]] + s[1..] == s;
    }
  }

  lemma MapAppend<T, U>(s: seq<T>, t: seq<T>, f: T -> U)
    ensures Map(s + t, f) == Map(s, f) + Map(t, f)
  {
    var l, r := Map(s + t, f), Map(s, f) + Map(t, f);
    assert |l| == |r|;
    forall i | 0 <= i < |l| ensures l[i] == r[i] {
      if i < |s| {
        assert (s + t)[i] == s[i];
      } else {
        assert (s + t)[i] == t[i - |s|];
      }
    }
  }

  /** Filtering then mapping a sequence extended by one element extends the result by that
      element's image exactly when it passes the filter. */
  lemma FilterMapSnoc<T, U>(init: seq<T>, x: T, p: T -> bool, f: T -> U)
    ensures Map(Filter(init + [x], p), f) == Map(Filter(init, p), f) + (if p(x) then [f(x)] else [])
  {
    FilterAppend(init, [x], p);
    var last := Filter([x], p);
    assert last == if p(x) then [x] else [] by {
      assert [x][1..] == [];
    }
    MapAppend(Filter(init, p), last, f);
  }

  /** What a loop over the first `n` elements yields when it yields `f(x)` for every `x` that
      satisfies `p`. */
  function YieldEach<T, U>(s: seq<T>, n: nat, p: T -> bool, f: T -> U): seq<U>
    requires n <= |s|
  {
    if n == 0 then [] else YieldEach(s, n - 1, p, f) + (if p(s[n - 1]) then [f(s[n - 1])] else [])
  }

  /** The loop yields the images of the elements that pass the filter, in order. */
  lemma {:induction false} YieldEachIsMapFilter<T, U>(s: seq<T>, n: nat, p: T -> bool, f: T -> U)
    requires n <= |s|
    ensures YieldEach(s, n, p, f) == Map(Filter(s[..n], p), f)
  {
    if n > 0 {
      YieldEachIsMapFilter(s, n - 1, p, f);
      assert s[..n] == s[..n - 1] + [s[n - 1]];
      FilterMapSnoc(s[..n - 1], s[n - 1], p, f);
    }
  }
}
