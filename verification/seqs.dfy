/** List comprehensions with a condition: `[x for x in s if p(x)]`. */
module Seqs {

  function Filter<T>(s: seq<T>, p: T -> bool): (r: seq<T>)
    ensures |r| <= |s|
    ensures forall k :: 0 <= k < |r| ==> p(r[k])
    ensures multiset(r) <= multiset(s)
    decreases |s|
  {
    if |s| == 0 then []
    else
      var init := s[..|s| - 1];
      assert s == init + [s[|s| - 1]];
      Filter(init, p) + (if p(s[|s| - 1]) then [s[|s| - 1]] else [])
  }

  /** An element is kept exactly when it is in the list and qualifies. */
  lemma {:induction false} FilterMembers<T>(s: seq<T>, p: T -> bool, x: T)
    ensures x in Filter(s, p) <==> x in s && p(x)
    decreases |s|
  {
    if |s| > 0 {
      var init := s[..|s| - 1];
      FilterMembers(init, p, x);
      assert s == init + [s[|s| - 1]];
    }
  }

  /** Nothing is kept exactly when no element qualifies. */
  lemma {:induction false} FilterEmpty<T>(s: seq<T>, p: T -> bool)
    ensures Filter(s, p) == [] <==> forall k :: 0 <= k < |s| ==> !p(s[k])
    decreases |s|
  {
    if |s| > 0 {
      var init := s[..|s| - 1];
      FilterEmpty(init, p);
      assert s == init + [s[|s| - 1]];
      assert forall k :: 0 <= k < |init| ==> init[k] == s[k];
    }
  }

  /** Filtering a list whose every element qualifies changes nothing. */
  lemma {:induction false} FilterAll<T>(s: seq<T>, p: T -> bool)
    requires forall k :: 0 <= k < |s| ==> p(s[k])
    ensures Filter(s, p) == s
    decreases |s|
  {
    if |s| > 0 {
      var init := s[..|s| - 1];
      FilterAll(init, p);
      assert s == init + [s[|s| - 1]];
    }
  }

  lemma FilterAppend<T>(s: seq<T>, x: T, p: T -> bool)
    ensures Filter(s + [x], p) == Filter(s, p) + (if p(x) then [x] else [])
  {
    assert (s + [x])[..|s|] == s;
  }

  /** `[f(x) for x in s]`. */
  function Map<T, U>(s: seq<T>, f: T -> U): (r: seq<U>)
    ensures |r| == |s|
    ensures forall k :: 0 <= k < |s| ==> r[k] == f(s[k])
  {
    seq(|s|, k requires 0 <= k < |s| => f(s[k]))
  }

  /** The multiset of `f`'s values over `s`. */
  function Image<T, U>(s: seq<T>, f: T -> U): multiset<U> {
    multiset(Map(s, f))
  }

  lemma ImageConcat<T, U>(a: seq<T>, b: seq<T>, f: T -> U)
    ensures Image(a + b, f) == Image(a, f) + Image(b, f)
  {
    assert Map(a + b, f) == Map(a, f) + Map(b, f);
  }

  lemma ImageSingle<T, U>(x: T, f: T -> U)
    ensures Image([x], f) == multiset{f(x)}
  {
    assert Map([x], f) == [f(x)];
  }

  /** An image has one element per list element. */
  lemma ImageSize<T, U>(s: seq<T>, f: T -> U)
    ensures |Image(s, f)| == |s|
  {
  }

  /** Taking element `j` out of a list takes its image out of the image. */
  lemma ImageRemove<T, U>(b: seq<T>, j: nat, f: T -> U)
    requires j < |b|
    ensures Image(b, f) == Image(b[..j] + b[j + 1..], f) + multiset{f(b[j])}
  {
    var m := Map(b, f);
    assert Map(b[..j] + b[j + 1..], f) == m[..j] + m[j + 1..];
    assert m == m[..j] + [m[j]] + m[j + 1..];
  }

  lemma MultisetRemove<T>(b: seq<T>, j: nat)
    requires j < |b|
    ensures multiset(b[..j] + b[j + 1..]) == multiset(b) - multiset{b[j]}
  {
    assert b == b[..j] + [b[j]] + b[j + 1..];
    assert multiset(b) == multiset(b[..j]) + multiset{b[j]} + multiset(b[j + 1..]);
  }

  /** Reordering a list does not change the multiset of its images. */
  lemma {:induction false} ImagePermutation<T, U>(a: seq<T>, b: seq<T>, f: T -> U)
    requires multiset(a) == multiset(b)
    ensures Image(a, f) == Image(b, f)
    decreases |a|
  {
    if |a| == 0 {
      assert |b| == |multiset(b)|;
    } else {
      var x := a[|a| - 1];
      var init := a[..|a| - 1];
      assert a == init + [x];
      assert multiset(a) == multiset(init) + multiset{x};
      assert x in multiset(b);
      var j :| 0 <= j < |b| && b[j] == x;
      var rest := b[..j] + b[j + 1..];
      MultisetRemove(b, j);
      assert multiset(init) == multiset(rest);
      ImagePermutation(init, rest, f);
      ImageRemove(b, j, f);
      ImageConcat(init, [x], f);
      ImageSingle(x, f);
    }
  }

  /** Lists whose elements have pointwise equal images have equal images. */
  lemma ImagePointwise<T, S, U>(a: seq<T>, b: seq<S>, f: T -> U, g: S -> U)
    requires |a| == |b|
    requires forall i :: 0 <= i < |a| ==> f(a[i]) == g(b[i])
    ensures Image(a, f) == Image(b, g)
  {
    assert Map(a, f) == Map(b, g);
  }

  /** The images of the kept elements are among the images of all. */
  lemma {:induction false} FilteredImage<T, U>(s: seq<T>, p: T -> bool, f: T -> U)
    ensures Image(Filter(s, p), f) <= Image(s, f)
    decreases |s|
  {
    if |s| > 0 {
      var init := s[..|s| - 1];
      var x := s[|s| - 1];
      assert s == init + [x];
      FilteredImage(init, p, f);
      ImageConcat(Filter(init, p), if p(x) then [x] else [], f);
      ImageConcat(init, [x], f);
      ImageSingle(x, f);
    }
  }
}
