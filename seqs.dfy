/** Sequence helpers standing in for JavaScript's `Array.prototype.filter` and `map`. */
module Seqs {

  /** `s.filter(f)`: the elements of `s` that satisfy `f`, in their original order. */
  function Filter<T>(s: seq<T>, f: T -> bool): (r: seq<T>)
    ensures |r| <= |s|
    ensures forall i :: 0 <= i < |r| ==> f(r[i])
  {
    if s == [] then [] else (if f(s[0]) then [s[0]] else []) + Filter(s[1..], f)
  }

  /** `s.map(f)`. */
  function Map<T, U>(s: seq<T>, f: T -> U): (r: seq<U>)
    ensures |r| == |s|
    ensures forall i :: 0 <= i < |s| ==> r[i] == f(s[i])
  {
    if s == [] then [] else [f(s[0])] + Map(s[1..], f)
  }

  /** An element survives the filter exactly when it was there and satisfies the predicate. */
  lemma {:induction false} FilterMembership<T>(s: seq<T>, f: T -> bool, x: T)
    ensures x in Filter(s, f) <==> x in s && f(x)
  {
    if s != [] {
      FilterMembership(s[1..], f, x);
      assert s == [s[0]] + s[1..];
    }
  }

  lemma FilterMembers<T>(s: seq<T>, f: T -> bool)
    ensures forall x :: x in Filter(s, f) <==> x in s && f(x)
  {
    forall x ensures x in Filter(s, f) <==> x in s && f(x) {
      FilterMembership(s, f, x);
    }
  }

  /** Filtering commutes with concatenation, so relative order is kept. */
  lemma {:induction false} FilterConcat<T>(a: seq<T>, b: seq<T>, f: T -> bool)
    ensures Filter(a + b, f) == Filter(a, f) + Filter(b, f)
  {
    if a == [] {
      assert a + b == b;
    } else {
      assert (a + b)[1..] == a[1..] + b;
      FilterConcat(a[1..], b, f);
    }
  }

  /** A filter that rejects nothing is the identity. */
  lemma {:induction false} FilterKeepsAll<T>(s: seq<T>, f: T -> bool)
    requires forall i :: 0 <= i < |s| ==> f(s[i])
    ensures Filter(s, f) == s
  {
    if s != [] {
      FilterKeepsAll(s[1..], f);
    }
  }

  /** A filter that rejects everything leaves nothing. */
  lemma {:induction false} FilterKeepsNone<T>(s: seq<T>, f: T -> bool)
    requires forall i :: 0 <= i < |s| ==> !f(s[i])
    ensures Filter(s, f) == []
  {
    if s != [] {
      FilterKeepsNone(s[1..], f);
    }
  }

  /** A second filter only narrows the result of the first. */
  lemma FilterNarrows<T>(s: seq<T>, f: T -> bool, g: T -> bool)
    ensures |Filter(Filter(s, f), g)| <= |Filter(s, f)|
    ensures forall x :: x in Filter(Filter(s, f), g) ==> x in Filter(s, f)
  {
    forall x | x in Filter(Filter(s, f), g)
      ensures x in Filter(s, f)
    {
      FilterMembership(Filter(s, f), g, x);
    }
  }
}
