/**
 The few Python string and path operations the pipeline relies on, written out
 with Python's semantics: `str.startswith`, `str.replace`, `str.strip`,
 slicing with negative and out-of-range bounds, `str(int)` and
 `os.path.join` on POSIX.
 */
module Text {

  predicate StartsWith(s: string, prefix: string) {
    |prefix| <= |s| && s[..|prefix|] == prefix
  }

  /** `pat` occurs in `s` at index `i`. */
  predicate OccursAt(s: string, pat: string, i: int) {
    0 <= i && i + |pat| <= |s| && s[i..i + |pat|] == pat
  }

  ghost predicate Occurs(s: string, pat: string) {
    exists i :: OccursAt(s, pat, i)
  }

  /** Python's `s.replace(pat, with)` for a non-empty pattern: every
      non-overlapping occurrence, scanning left to right, is replaced. */
  function ReplaceAll(s: string, pat: string, with: string): string
    requires pat != []
    decreases |s|
  {
    if |s| < |pat| then s
    else if s[..|pat|] == pat then with + ReplaceAll(s[|pat|..], pat, with)
    else [s[0]] + ReplaceAll(s[1..], pat, with)
  }

  /** A string without the pattern is returned unchanged. */
  lemma {:induction false} ReplaceAbsent(s: string, pat: string, with: string)
    requires pat != []
    requires !Occurs(s, pat)
    ensures ReplaceAll(s, pat, with) == s
    decreases |s|
  {
    if |s| < |pat| {
    } else if s[..|pat|] == pat {
      assert OccursAt(s, pat, 0);
    } else {
      if Occurs(s[1..], pat) {
        var i :| OccursAt(s[1..], pat, i);
        assert s[1..][i..i + |pat|] == s[i + 1..i + 1 + |pat|];
        assert OccursAt(s, pat, i + 1);
      }
      ReplaceAbsent(s[1..], pat, with);
      assert [s[0]] + s[1..] == s;
    }
  }

  /** A file name `stem + pat` whose stem never contains the first character
      of the pattern (a stem without `.` for the pattern `.wav`) has exactly
      its final pattern replaced. */
  lemma {:induction false} ReplaceAtEnd(stem: string, pat: string, with: string)
    requires pat != []
    requires forall k :: 0 <= k < |stem| ==> stem[k] != pat[0]
    ensures ReplaceAll(stem + pat, pat, with) == stem + with
    decreases |stem|
  {
    var s := stem + pat;
    if |stem| == 0 {
      assert s == pat;
      assert s[..|pat|] == pat;
      assert s[|pat|..] == [];
      assert ReplaceAll(s, pat, with) == with + ReplaceAll([], pat, with);
    } else {
      assert s[..|pat|] != pat by {
        assert s[..|pat|][0] == s[0] == stem[0];
      }
      assert ReplaceAll(s, pat, with) == [s[0]] + ReplaceAll(s[1..], pat, with);
      assert s[1..] == stem[1..] + pat;
      ReplaceAtEnd(stem[1..], pat, with);
      assert [stem[0]] + stem[1..] == stem;
    }
  }

  /** The characters Python's `str.isspace` accepts: `\t` to `\r`, the
      separators U+1C to U+1F with the space, U+85, U+A0, U+1680, U+2000 to
      U+200A, U+2028, U+2029, U+202F, U+205F and U+3000. */
  predicate IsSpace(c: char) {
    || ('\t' <= c <= '\r')
    || ('\U{1C}' <= c <= ' ')
    || c == '\U{85}' || c == '\U{A0}' || c == '\U{1680}'
    || ('\U{2000}' <= c <= '\U{200A}')
    || c == '\U{2028}' || c == '\U{2029}' || c == '\U{202F}' || c == '\U{205F}' || c == '\U{3000}'
  }

  function StripLeft(s: string): string {
    if |s| > 0 && IsSpace(s[0]) then StripLeft(s[1..]) else s
  }

  function StripRight(s: string): string {
    if |s| > 0 && IsSpace(s[|s| - 1]) then StripRight(s[..|s| - 1]) else s
  }

  /** `lstrip` removes a prefix of white space and stops at the first other
      character. */
  lemma {:induction false} StripLeftSpec(s: string)
    ensures var l := StripLeft(s);
            && |l| <= |s| && l == s[|s| - |l|..]
            && (forall k :: 0 <= k < |s| - |l| ==> IsSpace(s[k]))
            && (l == [] || !IsSpace(l[0]))
    decreases |s|
  {
    if |s| > 0 && IsSpace(s[0]) {
      StripLeftSpec(s[1..]);
      var l := StripLeft(s[1..]);
      assert StripLeft(s) == l;
      forall k | 0 <= k < |s| - |l| ensures IsSpace(s[k]) {
        if k > 0 {
          assert s[k] == s[1..][k - 1];
        }
      }
      assert s[|s| - |l|..] == s[1..][|s| - 1 - |l|..];
    }
  }

  /** `rstrip` removes a suffix of white space and stops at the last other
      character. */
  lemma {:induction false} StripRightSpec(s: string)
    ensures var r := StripRight(s);
            && |r| <= |s| && r == s[..|r|]
            && (forall k :: |r| <= k < |s| ==> IsSpace(s[k]))
            && (r == [] || !IsSpace(r[|r| - 1]))
    decreases |s|
  {
    if |s| > 0 && IsSpace(s[|s| - 1]) {
      var init := s[..|s| - 1];
      StripRightSpec(init);
      var r := StripRight(init);
      assert StripRight(s) == r;
      forall k | |r| <= k < |s| ensures IsSpace(s[k]) {
        if k < |s| - 1 {
          assert s[k] == init[k];
        }
      }
      assert s[..|r|] == init[..|r|];
    }
  }

  /** Where `s.strip()` begins in `s`. */
  function StripStart(s: string): nat {
    if |StripLeft(s)| <= |s| then |s| - |StripLeft(s)| else 0
  }

  /** Python's `s.strip()`. */
  function Strip(s: string): string {
    StripRight(StripLeft(s))
  }

  /** `s.strip()` is the slice of `s` from `StripStart(s)` left after
      removing leading and trailing white space; it neither starts nor ends
      with white space. */
  lemma StripIsTrimmedSlice(s: string)
    ensures var r := Strip(s);
            && StripStart(s) + |r| <= |s| && r == s[StripStart(s)..StripStart(s) + |r|]
            && (forall k :: 0 <= k < StripStart(s) ==> IsSpace(s[k]))
            && (forall k :: StripStart(s) + |r| <= k < |s| ==> IsSpace(s[k]))
            && (r == [] || (!IsSpace(r[0]) && !IsSpace(r[|r| - 1])))
  {
    StripLeftSpec(s);
    var l := StripLeft(s);
    StripRightSpec(l);
    var r := StripRight(l);
    var i := |s| - |l|;
    assert StripStart(s) == i;
    assert r == s[i..i + |r|];
    forall k | i + |r| <= k < |s| ensures IsSpace(s[k]) {
      assert s[k] == l[k - i];
    }
    if r != [] {
      assert r[0] == l[0];
    }
  }

  /** A string that neither starts nor ends with white space is its own strip. */
  lemma StripTrimmed(s: string)
    requires s == [] || (!IsSpace(s[0]) && !IsSpace(s[|s| - 1]))
    ensures Strip(s) == s
  {
  }

  /** Python's normalisation of a slice bound against a length `n`. */
  function SliceIndex(i: int, n: nat): (r: nat)
    ensures r <= n
    ensures 0 <= i <= n ==> r == i
    ensures -(n as int) <= i < 0 ==> r == n + i
    ensures i > n ==> r == n
    ensures i < -(n as int) ==> r == 0
  {
    if i < 0 then (if i + n < 0 then 0 else i + n)
    else if i > n then n
    else i
  }

  /** Python's `s[a:b]`, never failing: bounds are normalised, an empty
      range gives the empty string. */
  function PySlice(s: string, a: int, b: int): string {
    var i := SliceIndex(a, |s|);
    var j := SliceIndex(b, |s|);
    if i < j then s[i..j] else []
  }

  function DigitChar(d: nat): char
    requires d < 10
  {
    "0123456789"[d]
  }

  /** Python's `str(n)` for a natural number. */
  function NatToString(n: nat): (r: string)
    ensures r != []
    ensures forall k :: 0 <= k < |r| ==> '0' <= r[k] <= '9'
  {
    if n < 10 then [DigitChar(n)] else NatToString(n / 10) + [DigitChar(n % 10)]
  }

  /** The number a string of decimal digits denotes (`int(s)`). */
  function DigitsValue(s: string): int {
    if |s| == 0 then 0 else DigitsValue(s[..|s| - 1]) * 10 + (s[|s| - 1] as int - '0' as int)
  }

  /** `int(str(n)) == n`: the rendering reads back as the number itself. */
  lemma {:induction false} NatToStringValue(n: nat)
    ensures DigitsValue(NatToString(n)) == n
    decreases n
  {
    var d := DigitChar(n % 10);
    assert d as int - '0' as int == n % 10;
    if n >= 10 {
      NatToStringValue(n / 10);
      var r := NatToString(n / 10) + [d];
      assert r[..|r| - 1] == NatToString(n / 10);
    }
  }

  /** Distinct indices are rendered as distinct strings, so the per-segment
      file names never collide. */
  lemma NatToStringInjective(a: nat, b: nat)
    requires NatToString(a) == NatToString(b)
    ensures a == b
  {
    NatToStringValue(a);
    NatToStringValue(b);
  }

  /** `os.path.join(a, b)` with two arguments on POSIX: an absolute `b`
      wins, otherwise a single `/` separates the parts. */
  function PathJoin(a: string, b: string): (r: string)
    ensures StartsWith(b, "/") ==> r == b
    ensures !StartsWith(b, "/") && a != [] && a[|a| - 1] != '/' ==> r == a + "/" + b
    ensures !StartsWith(b, "/") ==> |b| <= |r| && r[|r| - |b|..] == b
  {
    if StartsWith(b, "/") then b
    else if a == [] || a[|a| - 1] == '/' then a + b
    else a + "/" + b
  }
}
