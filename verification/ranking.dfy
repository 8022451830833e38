/**
 The two ranking primitives the pipeline takes from Python: `max(xs, key=f)`,
 which returns the FIRST element of maximal key, and `sorted(xs, key=f)` /
 `list.sort(key=f)`, which are stable. Keys are reals; a descending sort
 (`reverse=True`, still stable) is the ascending sort by the negated key.
 */
module Ranking {

  ghost predicate Ascending<T>(s: seq<T>, key: T -> real) {
    forall i, j :: 0 <= i < j < |s| ==> key(s[i]) <= key(s[j])
  }

  /** Index of Python's `max(s, key=key)`: maximal, and strictly greater than
      every element before it. */
  function ArgMaxFirst<T>(s: seq<T>, key: T -> real): (r: nat)
    requires |s| > 0
    ensures r < |s|
    ensures forall j :: 0 <= j < |s| ==> key(s[j]) <= key(s[r])
    ensures forall j :: 0 <= j < r ==> key(s[j]) < key(s[r])
  {
    if |s| == 1 then 0
    else
      var best := ArgMaxFirst(s[..|s| - 1], key);
      if key(s[|s| - 1]) > key(s[best]) then |s| - 1 else best
  }

  /** The two properties of `ArgMaxFirst` pin the index down uniquely. */
  lemma ArgMaxFirstUnique<T>(s: seq<T>, key: T -> real, i: nat)
    requires i < |s|
    requires forall j :: 0 <= j < |s| ==> key(s[j]) <= key(s[i])
    requires forall j :: 0 <= j < i ==> key(s[j]) < key(s[i])
    ensures ArgMaxFirst(s, key) == i
  {
  }

  /** Inserts `x` into an ascending `s` after every element whose key is not
      larger than `x`'s: the step of a stable insertion sort. */
  function Insert<T>(s: seq<T>, x: T, key: T -> real): (r: seq<T>)
    ensures |r| == |s| + 1
    ensures multiset(r) == multiset(s) + multiset{x}
    ensures Ascending(s, key) ==> Ascending(r, key)
  {
    if |s| == 0 || key(s[|s| - 1]) <= key(x) then s + [x]
    else
      var init := s[..|s| - 1];
      var last := s[|s| - 1];
      assert s == init + [last];
      var r := Insert(init, x, key) + [last];
      assert Ascending(s, key) ==> Ascending(r, key) by {
        if Ascending(s, key) {
          assert Ascending(init, key);
          forall i | 0 <= i < |r| - 1 ensures key(r[i]) <= key(last) {
            assert r[i] in multiset(Insert(init, x, key));
            if r[i] != x {
              assert r[i] in multiset(init);
              var k :| 0 <= k < |init| && init[k] == r[i];
              assert s[k] == r[i];
            }
          }
        }
      }
      r
  }

  /** Python's stable sort by `key`, as insertion sort on sequences. */
  function StableSort<T>(s: seq<T>, key: T -> real): (r: seq<T>)
    ensures |r| == |s|
    ensures multiset(r) == multiset(s)
    ensures Ascending(r, key)
  {
    if |s| == 0 then []
    else
      assert s == s[..|s| - 1] + [s[|s| - 1]];
      Insert(StableSort(s[..|s| - 1], key), s[|s| - 1], key)
  }

  /** The subsequence of `s` whose key equals `v`, in order. */
  function Ties<T>(s: seq<T>, key: T -> real, v: real): seq<T> {
    if |s| == 0 then []
    else Ties(s[..|s| - 1], key, v) + (if key(s[|s| - 1]) == v then [s[|s| - 1]] else [])
  }

  lemma TiesAppend<T>(s: seq<T>, x: T, key: T -> real, v: real)
    ensures Ties(s + [x], key, v) == Ties(s, key, v) + (if key(x) == v then [x] else [])
  {
    assert (s + [x])[..|s|] == s;
  }

  lemma {:induction false} InsertTies<T>(s: seq<T>, x: T, key: T -> real, v: real)
    requires Ascending(s, key)
    ensures Ties(Insert(s, x, key), key, v) == Ties(s, key, v) + (if key(x) == v then [x] else [])
    decreases |s|
  {
    if |s| == 0 || key(s[|s| - 1]) <= key(x) {
      TiesAppend(s, x, key, v);
    } else {
      var init := s[..|s| - 1];
      var last := s[|s| - 1];
      assert s == init + [last];
      assert Ascending(init, key);
      InsertTies(init, x, key, v);
      TiesAppend(Insert(init, x, key), last, key, v);
      TiesAppend(init, last, key, v);
    }
  }

  /** Stability: among elements of equal key the input order survives. */
  lemma {:induction false} StableSortKeepsTies<T>(s: seq<T>, key: T -> real, v: real)
    ensures Ties(StableSort(s, key), key, v) == Ties(s, key, v)
    decreases |s|
  {
    if |s| > 0 {
      var init := s[..|s| - 1];
      StableSortKeepsTies(init, key, v);
      InsertTies(StableSort(init, key), s[|s| - 1], key, v);
    }
  }

  /** An already ascending sequence is left as it is. */
  lemma {:induction false} StableSortOfAscending<T>(s: seq<T>, key: T -> real)
    requires Ascending(s, key)
    ensures StableSort(s, key) == s
    decreases |s|
  {
    if |s| > 0 {
      var init := s[..|s| - 1];
      assert Ascending(init, key);
      StableSortOfAscending(init, key);
      assert s == init + [s[|s| - 1]];
    }
  }
}
