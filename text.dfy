/**
 * String helpers with Python's `str` semantics: `strip`, `startswith`, `in`,
 * `replace(pat, "")`, `split("\n")`, `str(int)`, slicing and `sorted` on lists of strings.
 */
module Text {

  /** The characters for which Python's `str.isspace()` is true. */
  predicate IsSpace(c: char) {
    || ('\t' <= c <= '\r')
    || ('\U{1c}' <= c <= '\U{1f}')
    || c == ' ' || c == '\U{85}' || c == '\U{a0}' || c == '\U{1680}'
    || ('\U{2000}' <= c <= '\U{200a}')
    || c == '\U{2028}' || c == '\U{2029}' || c == '\U{202f}' || c == '\U{205f}' || c == '\U{3000}'
  }

  predicate IsBlank(s: string) {
    forall i :: 0 <= i < |s| ==> IsSpace(s[i])
  }

  /** `s.strip()`: drops whitespace from both ends, one character at a time. */
  function Strip(s: string): (r: string)
    ensures |r| <= |s|
    ensures r != [] ==> !IsSpace(r[0]) && !IsSpace(r[|r| - 1])
    decreases |s|
  {
    if s == [] then []
    else if IsSpace(s[0]) then Strip(s[1..])
    else if IsSpace(s[|s| - 1]) then Strip(s[..|s| - 1])
    else s
  }

  /** `strip` gives the empty text exactly for blank text. */
  lemma {:induction false} StripEmptyIffBlank(s: string)
    ensures Strip(s) == [] <==> IsBlank(s)
    decreases |s|
  {
    if s != [] && IsSpace(s[0]) {
      var t := s[1..];
      StripEmptyIffBlank(t);
      if IsBlank(t) {
        forall i | 0 <= i < |s| ensures IsSpace(s[i]) {
          if i > 0 { assert s[i] == t[i - 1]; }
        }
      }
      if IsBlank(s) {
        forall i | 0 <= i < |t| ensures IsSpace(t[i]) {
          assert t[i] == s[i + 1];
        }
      }
    } else if s != [] && IsSpace(s[|s| - 1]) {
      var t := s[..|s| - 1];
      StripEmptyIffBlank(t);
      assert !IsSpace(s[0]);
      assert t[0] == s[0];
    } else if s != [] {
      assert !IsSpace(s[0]);
    }
  }

  /** A stripped text neither starts nor ends with whitespace. */
  lemma {:induction false} StripTrimmed(s: string)
    ensures Strip(s) == [] || (!IsSpace(Strip(s)[0]) && !IsSpace(Strip(s)[|Strip(s)| - 1]))
    decreases |s|
  {
    if s != [] && IsSpace(s[0]) {
      StripTrimmed(s[1..]);
    } else if s != [] && IsSpace(s[|s| - 1]) {
      StripTrimmed(s[..|s| - 1]);
    }
  }

  /** `r` sits at index `k` of `s` with only whitespace before and after it. */
  predicate PaddedAt(s: string, r: string, k: int) {
    0 <= k <= |s| - |r| && s[k..k + |r|] == r && IsBlank(s[..k]) && IsBlank(s[k + |r|..])
  }

  /** `strip` keeps a contiguous part of the text and removes only whitespace around it. */
  lemma {:induction false} StripInside(s: string)
    ensures exists k :: PaddedAt(s, Strip(s), k)
    decreases |s|
  {
    var r := Strip(s);
    if s == [] {
      assert PaddedAt(s, r, 0);
    } else if IsSpace(s[0]) {
      StripInside(s[1..]);
      var k :| PaddedAt(s[1..], r, k);
      PaddedFront(s, r, k);
    } else if IsSpace(s[|s| - 1]) {
      StripInside(s[..|s| - 1]);
      var k :| PaddedAt(s[..|s| - 1], r, k);
      PaddedBack(s, r, k);
    } else {
      assert PaddedAt(s, r, 0);
    }
  }

  /** Whitespace in front of a padded text keeps it padded, one place further on. */
  lemma PaddedFront(s: string, r: string, k: int)
    requires s != [] && IsSpace(s[0]) && PaddedAt(s[1..], r, k)
    ensures PaddedAt(s, r, k + 1)
  {
    var t := s[1..];
    assert s[k + 1..k + 1 + |r|] == t[k..k + |r|];
    assert s[k + 1 + |r|..] == t[k + |r|..];
    var pre, tpre := s[..k + 1], t[..k];
    forall i | 0 <= i < |pre| ensures IsSpace(pre[i]) {
      if i > 0 { assert pre[i] == tpre[i - 1]; }
    }
  }

  /** Whitespace behind a padded text keeps it padded at the same place. */
  lemma PaddedBack(s: string, r: string, k: int)
    requires s != [] && IsSpace(s[|s| - 1]) && PaddedAt(s[..|s| - 1], r, k)
    ensures PaddedAt(s, r, k)
  {
    var t := s[..|s| - 1];
    assert s[k..k + |r|] == t[k..k + |r|];
    assert s[..k] == t[..k];
    var post, tpost := s[k + |r|..], t[k + |r|..];
    forall i | 0 <= i < |post| ensures IsSpace(post[i]) {
      if i < |tpost| { assert post[i] == tpost[i]; }
    }
  }

  predicate StartsWith(s: string, prefix: string) {
    |prefix| <= |s| && s[..|prefix|] == prefix
  }

  /** `pat` occurs in `s` at index `k`. */
  predicate OccursAt(s: string, pat: string, k: int) {
    0 <= k <= |s| - |pat| && s[k..k + |pat|] == pat
  }

  /** Python's `pat in s`. */
  predicate Contains(s: string, pat: string) {
    exists k | 0 <= k <= |s| - |pat| :: OccursAt(s, pat, k)
  }

  /** `s.replace(pat, "")`: drops every non-overlapping occurrence of `pat`, scanning left to right. */
  function RemoveAll(s: string, pat: string): (r: string)
    requires pat != []
    ensures |r| <= |s|
    ensures !Contains(s, pat) ==> r == s
    decreases |s|
  {
    if s == [] then []
    else if StartsWith(s, pat) then
      assert OccursAt(s, pat, 0);
      RemoveAll(s[|pat|..], pat)
    else
      var r := [s[0]] + RemoveAll(s[1..], pat);
      if Contains(s[1..], pat) then ContainsTail(s, pat); r else r
  }

  lemma ContainsTail(s: string, pat: string)
    requires s != [] && Contains(s[1..], pat)
    ensures Contains(s, pat)
  {
    var t := s[1..];
    var k :| 0 <= k <= |t| - |pat| && OccursAt(t, pat, k);
    assert s[k + 1..k + 1 + |pat|] == t[k..k + |pat|];
    assert OccursAt(s, pat, k + 1);
  }

  /** `s.split(sep)` for a single separator character: always at least one piece. */
  function Split(s: string, sep: char): (r: seq<string>)
    ensures |r| >= 1
    ensures forall i :: 0 <= i < |r| ==> sep !in r[i]
    decreases |s|
  {
    if sep !in s then [s]
    else
      var k := IndexOf(s, sep);
      [s[..k]] + Split(s[k + 1..], sep)
  }

  function IndexOf(s: string, c: char): (k: nat)
    requires c in s
    ensures k < |s| && s[k] == c && c !in s[..k]
  {
    if s[0] == c then 0 else 1 + IndexOf(s[1..], c)
  }

  /** Python's `s[:n]` for `n >= 0`. */
  function Take(s: string, n: nat): (r: string)
    ensures |r| == if |s| <= n then |s| else n
    ensures r == s[..|r|]
  {
    if |s| <= n then s else s[..n]
  }

  function DigitChar(d: nat): char
    requires d < 10
  {
    "0123456789"[d]
  }

  /** Decimal digits of a natural number, most significant first. */
  function NatToString(n: nat): (r: string)
    ensures |r| >= 1
    ensures forall i :: 0 <= i < |r| ==> '0' <= r[i] <= '9'
  {
    if n < 10 then [DigitChar(n)] else NatToString(n / 10) + [DigitChar(n % 10)]
  }

  /** `str(n)` for a Python `int`. */
  function IntToString(n: int): (r: string)
    ensures r != []
    ensures (r[0] == '-') <==> n < 0
  {
    if n < 0 then "-" + NatToString(-n) else NatToString(n)
  }

  /** Python's `<` on `str`: lexicographic by code point. */
  predicate Less(a: string, b: string)
    ensures Less(a, b) ==> a != b
    decreases |a|
  {
    if a == [] then b != []
    else if b == [] then false
    else if a[0] != b[0] then a[0] < b[0]
    else Less(a[1..], b[1..])
  }

  predicate LessEq(a: string, b: string) {
    a == b || Less(a, b)
  }

  lemma {:induction false} LessTotal(a: string, b: string)
    ensures a == b || Less(a, b) || Less(b, a)
    decreases |a|
  {
    if a != [] && b != [] && a[0] == b[0] {
      LessTotal(a[1..], b[1..]);
      if a[1..] == b[1..] {
        assert a == [a[0]] + a[1..] && b == [b[0]] + b[1..];
      }
    }
  }

  lemma {:induction false} LessTransitive(a: string, b: string, c: string)
    requires Less(a, b) && Less(b, c)
    ensures Less(a, c)
    decreases |a|
  {
    if a != [] && a[0] == b[0] && b[0] == c[0] {
      LessTransitive(a[1..], b[1..], c[1..]);
    }
  }

  lemma {:induction false} LessIrreflexive(a: string)
    ensures !Less(a, a)
    decreases |a|
  {
    if a != [] {
      LessIrreflexive(a[1..]);
    }
  }

  predicate Sorted(s: seq<string>) {
    forall i, j :: 0 <= i < j < |s| ==> LessEq(s[i], s[j])
  }

  /** Inserts `x` into the sorted list `s` before the first element greater than it. */
  function Insert(x: string, s: seq<string>): (r: seq<string>)
    requires Sorted(s)
    ensures Sorted(r)
    ensures multiset(r) == multiset(s) + multiset{x}
  {
    if s == [] then [x]
    else if LessEq(x, s[0]) then
      InsertFront(x, s);
      [x] + s
    else
      var t := Insert(x, s[1..]);
      InsertBehind(x, s, t);
      [s[0]] + t
  }

  /** An element no greater than the head of a sorted list can go in front of it. */
  lemma InsertFront(x: string, s: seq<string>)
    requires Sorted(s) && s != [] && LessEq(x, s[0])
    ensures Sorted([x] + s)
  {
    forall j | 0 <= j < |s| ensures LessEq(x, s[j]) {
      if j > 0 && x != s[0] && s[0] != s[j] { LessTransitive(x, s[0], s[j]); }
    }
  }

  /** An element greater than the head goes in the tail: the head stays no greater than anything after it. */
  lemma InsertBehind(x: string, s: seq<string>, t: seq<string>)
    requires Sorted(s) && s != [] && !LessEq(x, s[0])
    requires Sorted(t) && multiset(t) == multiset(s[1..]) + multiset{x}
    ensures Sorted([s[0]] + t)
    ensures multiset([s[0]] + t) == multiset(s) + multiset{x}
  {
    LessTotal(x, s[0]);
    assert s == [s[0]] + s[1..];
    assert forall e :: e in multiset(t) ==> e == x || e in multiset(s[1..]);
    forall j | 0 <= j < |t| ensures LessEq(s[0], t[j]) {
      assert t[j] in multiset(t);
      if t[j] != x {
        assert t[j] in s[1..];
        var k :| 0 <= k < |s[1..]| && s[1..][k] == t[j];
        assert s[k + 1] == t[j];
      }
    }
  }

  /** Python's `sorted(xs)` on a list of strings (insertion sort). */
  function SortStrings(xs: seq<string>): (r: seq<string>)
    ensures Sorted(r)
    ensures multiset(r) == multiset(xs)
    ensures |r| == |xs|
  {
    if xs == [] then []
    else
      var r := Insert(xs[|xs| - 1], SortStrings(xs[..|xs| - 1]));
      assert xs == xs[..|xs| - 1] + [xs[|xs| - 1]];
      assert |r| == |multiset(r)| == |multiset(xs)| == |xs|;
      r
  }
}
