/**
 * The three Python string operations the crawler applies to cell texts:
 * `str.strip()` with no argument, the substring test `sub in s`, and
 * `s.replace(old, "")`.
 */
module PyStr {

  /** The characters for which Python's `str.isspace()` holds, the set `str.strip()` removes. */
  predicate IsSpace(c: char) {
    || ('\t' <= c <= '\r')
    || ('\U{1C}' <= c <= ' ')
    || c == '\U{85}' || c == '\U{A0}' || c == '\U{1680}'
    || ('\U{2000}' <= c <= '\U{200A}')
    || c == '\U{2028}' || c == '\U{2029}' || c == '\U{202F}' || c == '\U{205F}' || c == '\U{3000}'
  }

  /** `s.lstrip()`: drops the leading whitespace, keeps the rest. */
  function StripLeft(s: string): (r: string)
    ensures |r| <= |s| && r == s[|s| - |r|..]
    ensures forall k | 0 <= k < |s| - |r| :: IsSpace(s[k])
    ensures r == [] || !IsSpace(r[0])
  {
    if s != [] && IsSpace(s[0]) then StripLeft(s[1..]) else s
  }

  /** `s.rstrip()`: drops the trailing whitespace, keeps the rest. */
  function StripRight(s: string): (r: string)
    ensures |r| <= |s| && r == s[..|r|]
    ensures forall k | |r| <= k < |s| :: IsSpace(s[k])
    ensures r == [] || !IsSpace(r[|r| - 1])
  {
    if s != [] && IsSpace(s[|s| - 1]) then StripRight(s[..|s| - 1]) else s
  }

  /** `r`, found at index `i` of `s`, is what is left of `s` once the whitespace at both ends is removed. */
  ghost predicate IsTrimmedAt(s: string, i: nat, r: string) {
    && i + |r| <= |s| && r == s[i..i + |r|]
    && (forall k | 0 <= k < i :: IsSpace(s[k]))
    && (forall k | i + |r| <= k < |s| :: IsSpace(s[k]))
    && (r == [] || (!IsSpace(r[0]) && !IsSpace(r[|r| - 1])))
  }

  /** `s.strip()`: the middle part of `s` between its leading and trailing whitespace. */
  function Strip(s: string): (r: string)
    ensures exists i: nat :: IsTrimmedAt(s, i, r)
    ensures r == [] || (!IsSpace(r[0]) && !IsSpace(r[|r| - 1]))
  {
    var l := StripLeft(s);
    var r := StripRight(l);
    var i := |s| - |l|;
    assert s[i..] == l;
    assert r == s[i..i + |r|];
    assert IsTrimmedAt(s, i, r);
    r
  }

  /** Stripping twice is stripping once. */
  lemma StripIdempotent(s: string)
    ensures Strip(Strip(s)) == Strip(s)
  {
    var r := Strip(s);
    StripOfTrimmed(r);
  }

  /** A string with no whitespace at either end is its own strip. */
  lemma StripOfTrimmed(s: string)
    requires s == [] || (!IsSpace(s[0]) && !IsSpace(s[|s| - 1]))
    ensures Strip(s) == s
  {
  }

  /** `sub` occurs in `s` starting at index `i`. */
  ghost predicate OccursAt(s: string, sub: string, i: int) {
    0 <= i && i + |sub| <= |s| && s[i..i + |sub|] == sub
  }

  /** Python's `sub in s`. */
  predicate Contains(s: string, sub: string)
    decreases |s|
  {
    |sub| <= |s| && (s[..|sub|] == sub || Contains(s[1..], sub))
  }

  /** `sub in s` holds exactly when `sub` occurs somewhere in `s`. */
  lemma {:induction false} ContainsIff(s: string, sub: string)
    ensures Contains(s, sub) <==> exists i :: OccursAt(s, sub, i)
  {
    if |sub| <= |s| {
      if s[..|sub|] == sub {
        assert OccursAt(s, sub, 0);
      } else {
        ContainsIff(s[1..], sub);
        if Contains(s[1..], sub) {
          var i :| OccursAt(s[1..], sub, i);
          assert s[i + 1..i + 1 + |sub|] == s[1..][i..i + |sub|];
          assert OccursAt(s, sub, i + 1);
        }
        if exists i :: OccursAt(s, sub, i) {
          var i :| OccursAt(s, sub, i);
          assert i != 0;
          assert s[1..][i - 1..i - 1 + |sub|] == s[i..i + |sub|];
          assert OccursAt(s[1..], sub, i - 1);
        }
      }
    }
  }

  /**
   * `s.replace(pat, "")`: one left-to-right pass that deletes every
   * non-overlapping occurrence of `pat`.
   */
  function RemoveAll(s: string, pat: string): (r: string)
    requires pat != []
    ensures |r| <= |s|
    decreases |s|
  {
    if |s| < |pat| then s
    else if s[..|pat|] == pat then RemoveAll(s[|pat|..], pat)
    else [s[0]] + RemoveAll(s[1..], pat)
  }

  /** A string in which `pat` does not occur is left as it is. */
  lemma {:induction false} RemoveAllAbsent(s: string, pat: string)
    requires pat != [] && !Contains(s, pat)
    ensures RemoveAll(s, pat) == s
  {
    if |pat| <= |s| {
      RemoveAllAbsent(s[1..], pat);
      assert s == [s[0]] + s[1..];
    }
  }

  /** A leading occurrence of `pat` is deleted and the rest is treated as on its own. */
  lemma RemoveAllLeading(pat: string, s: string)
    requires pat != []
    ensures RemoveAll(pat + s, pat) == RemoveAll(s, pat)
  {
    assert (pat + s)[..|pat|] == pat;
    assert (pat + s)[|pat|..] == s;
  }

  /** Where `pat` does not start, the pass copies the first character. */
  lemma RemoveAllCopiesHead(s: string, pat: string)
    requires pat != [] && |pat| <= |s| && s[..|pat|] != pat
    ensures RemoveAll(s, pat) == [s[0]] + RemoveAll(s[1..], pat)
  {
  }

  /** No occurrence of `pat` starts at the front of `a + pat + b`, nor inside `a[1..]`. */
  lemma NoEarlierMatch(a: string, pat: string, b: string)
    requires pat != [] && a != [] && !Contains(a + pat[..|pat| - 1], pat)
    ensures (a + pat + b)[..|pat|] != pat
    ensures !Contains(a[1..] + pat[..|pat| - 1], pat)
  {
    var t := a + pat[..|pat| - 1];
    assert |pat| <= |t|;
    assert (a + pat + b)[..|pat|] == t[..|pat|];
    assert t[1..] == a[1..] + pat[..|pat| - 1];
  }

  /** One step of `RemoveAllFirst`: the first character of `a` is copied. */
  lemma RemoveAllCopiesFirst(a: string, pat: string, b: string)
    requires pat != [] && a != [] && (a + pat + b)[..|pat|] != pat
    requires RemoveAll(a[1..] + pat + b, pat) == a[1..] + RemoveAll(b, pat)
    ensures RemoveAll(a + pat + b, pat) == a + RemoveAll(b, pat)
  {
    var y := pat + b;
    assert a + pat + b == a + y;
    assert a[1..] + pat + b == a[1..] + y;
    RemoveAllCopiesConcat(a, y, pat);
    var v := a[1..] + RemoveAll(b, pat);
    assert [a[0]] + v == a + RemoveAll(b, pat);
  }

  /** `RemoveAllCopiesHead` for a text split into a non-empty `x` and the rest `y`. */
  lemma RemoveAllCopiesConcat(x: string, y: string, pat: string)
    requires pat != [] && x != [] && |pat| <= |x + y| && (x + y)[..|pat|] != pat
    ensures RemoveAll(x + y, pat) == [x[0]] + RemoveAll(x[1..] + y, pat)
  {
    var s := x + y;
    assert s[1..] == x[1..] + y;
    RemoveAllCopiesHead(s, pat);
  }

  /**
   * The first occurrence of `pat` is deleted and everything before it is
   * kept: when no occurrence starts inside `a` (none ends before the end of
   * `a + pat` minus its last character), the pass copies `a`, drops `pat`
   * and carries on with `b`.
   */
  lemma {:induction false} RemoveAllFirst(a: string, pat: string, b: string)
    requires pat != [] && !Contains(a + pat[..|pat| - 1], pat)
    ensures RemoveAll(a + pat + b, pat) == a + RemoveAll(b, pat)
    decreases |a|
  {
    if a == [] {
      assert a + pat + b == pat + b;
      RemoveAllLeading(pat, b);
    } else {
      NoEarlierMatch(a, pat, b);
      RemoveAllFirst(a[1..], pat, b);
      RemoveAllCopiesFirst(a, pat, b);
    }
  }
}
