/**
 The string operations the webhook handler borrows from Python's `str`:
 substring membership (`sub in s`), the last `/`-separated segment
 (`s.split("/")[-1]`), removal of every occurrence of a pattern
 (`s.replace(pat, "")`) and whitespace trimming (`s.strip()`).
 */
module Text {

  /** `sub` occurs in `s` starting at index `i`. */
  predicate OccursAt(s: string, sub: string, i: int) {
    0 <= i && i + |sub| <= |s| && s[i..i + |sub|] == sub
  }

  /** `s` ends with `r`. */
  predicate IsSuffix(r: string, s: string) {
    |r| <= |s| && s[|s| - |r|..] == r
  }

  /** An occurrence in the tail is an occurrence in the string, one further on. */
  lemma ShiftOccurrence(s: string, sub: string, i: nat)
    requires |s| > 0
    ensures OccursAt(s[1..], sub, i) <==> OccursAt(s, sub, i + 1)
  {
    if i + |sub| <= |s| - 1 {
      assert s[1..][i..i + |sub|] == s[i + 1..i + 1 + |sub|];
    }
  }

  /** An occurrence in the tail of a non-empty string is an occurrence in the
      string itself, one position further on, and conversely. */
  lemma OccursInTail(s: string, sub: string)
    requires |s| > 0
    ensures forall j :: OccursAt(s[1..], sub, j) <==> j >= 0 && OccursAt(s, sub, j + 1)
    ensures forall i :: i >= 1 ==> (OccursAt(s, sub, i) <==> OccursAt(s[1..], sub, i - 1))
  {
    forall j | 0 <= j
      ensures OccursAt(s[1..], sub, j) <==> OccursAt(s, sub, j + 1)
    {
      ShiftOccurrence(s, sub, j);
    }
  }

  /** Python's `sub in s` for two strings. */
  function Contains(s: string, sub: string): (b: bool)
    ensures b <==> exists i :: OccursAt(s, sub, i)
    decreases |s|
  {
    if |sub| <= |s| && s[..|sub|] == sub then
      assert OccursAt(s, sub, 0);
      true
    else if |s| == 0 then
      false
    else
      OccursInTail(s, sub);
      Contains(s[1..], sub)
  }

  /** A pattern with a character that `s` lacks does not occur in `s`. */
  lemma MissingCharNotContained(s: string, sub: string, k: int)
    requires 0 <= k < |sub| && sub[k] !in s
    ensures !Contains(s, sub)
  {
    forall i | 0 <= i ensures !OccursAt(s, sub, i) {
      if i + |sub| <= |s| {
        assert s[i..i + |sub|][k] == s[i + k];
      }
    }
  }

  /** The segment after the last `/`: Python's `s.split("/")[-1]`. */
  function LastSegment(s: string): (r: string)
    ensures '/' !in r
    ensures IsSuffix(r, s)
    ensures |r| < |s| ==> s[|s| - |r| - 1] == '/'
    decreases |s|
  {
    if |s| == 0 then s
    else if s[|s| - 1] == '/' then ""
    else
      var init := LastSegment(s[..|s| - 1]);
      assert s[..|s| - 1][|s| - 1 - |init|..] == s[|s| - 1 - |init|..|s| - 1];
      init + [s[|s| - 1]]
  }

  /** The three properties of `LastSegment` single out its result: it is the
      longest suffix free of `/`. */
  lemma LastSegmentUnique(s: string, t: string)
    requires '/' !in t && IsSuffix(t, s)
    requires |t| < |s| ==> s[|s| - |t| - 1] == '/'
    ensures LastSegment(s) == t
  {
  }

  /** A user or thread resource name `prefix/segment` normalises to `segment`. */
  lemma LastSegmentOfPath(prefix: string, segment: string)
    requires '/' !in segment
    ensures LastSegment(prefix + "/" + segment) == segment
  {
    var s := prefix + "/" + segment;
    assert s[|s| - |segment|..] == segment;
    LastSegmentUnique(s, segment);
  }

  /** Normalising an id is idempotent, and leaves exactly the `/`-free ids alone. */
  lemma LastSegmentFixpoint(s: string)
    ensures LastSegment(s) == s <==> '/' !in s
    ensures LastSegment(LastSegment(s)) == LastSegment(s)
  {
    if '/' !in s {
      LastSegmentUnique(s, s);
    }
    var r := LastSegment(s);
    LastSegmentUnique(r, r);
  }

  /** Python's `str.isspace` on one character: the Unicode white space. */
  predicate IsSpace(c: char) {
    || '\t' <= c <= '\r'
    || '\U{1C}' <= c <= ' '
    || c == '\U{85}' || c == '\U{A0}' || c == '\U{1680}'
    || '\U{2000}' <= c <= '\U{200A}'
    || c == '\U{2028}' || c == '\U{2029}' || c == '\U{202F}'
    || c == '\U{205F}' || c == '\U{3000}'
  }

  /** The index of the first character of `s` at or after `i` that is not
      white space, `|s|` when there is none. */
  function SkipSpaces(s: string, i: nat): (j: nat)
    requires i <= |s|
    ensures i <= j <= |s|
    ensures forall k :: i <= k < j ==> IsSpace(s[k])
    ensures j < |s| ==> !IsSpace(s[j])
    decreases |s| - i
  {
    if i < |s| && IsSpace(s[i]) then SkipSpaces(s, i + 1) else i
  }

  /** The index just past the last character of `s` before `j` and not
      before `lo` that is not white space, `lo` when there is none. */
  function BackOverSpaces(s: string, lo: nat, j: nat): (e: nat)
    requires lo <= j <= |s|
    ensures lo <= e <= j
    ensures forall k :: e <= k < j ==> IsSpace(s[k])
    ensures e > lo ==> !IsSpace(s[e - 1])
    decreases j
  {
    if lo < j && IsSpace(s[j - 1]) then BackOverSpaces(s, lo, j - 1) else j
  }

  /** Python's `s.strip()`: the factor of `s` left once the white space at
      both ends is gone; it neither starts nor ends with white space. */
  function Strip(s: string): (r: string)
    ensures OccursAt(s, r, SkipSpaces(s, 0))
    ensures forall k :: 0 <= k < SkipSpaces(s, 0) ==> IsSpace(s[k])
    ensures forall k :: SkipSpaces(s, 0) + |r| <= k < |s| ==> IsSpace(s[k])
    ensures |r| > 0 ==> !IsSpace(r[0]) && !IsSpace(r[|r| - 1])
  {
    var lo := SkipSpaces(s, 0);
    var hi := BackOverSpaces(s, lo, |s|);
    s[lo..hi]
  }

  /** A string without white space at either end is its own strip, so
      stripping twice is stripping once. */
  lemma StripFixpoint(s: string)
    ensures (|s| == 0 || (!IsSpace(s[0]) && !IsSpace(s[|s| - 1]))) ==> Strip(s) == s
    ensures Strip(Strip(s)) == Strip(s)
  {
  }

  /** Python's `s.replace(pat, "")`: scanning left to right, every
      non-overlapping occurrence of `pat` is deleted. An empty pattern leaves
      `s` unchanged. */
  function RemoveAll(s: string, pat: string): (r: string)
    ensures |r| <= |s|
    decreases |s|
  {
    if |pat| == 0 || |s| == 0 then s
    else if |pat| <= |s| && s[..|pat|] == pat then RemoveAll(s[|pat|..], pat)
    else [s[0]] + RemoveAll(s[1..], pat)
  }

  /** Text in which the pattern does not occur is left as it is. */
  lemma {:induction false} RemoveAllWithoutOccurrence(s: string, pat: string)
    ensures !Contains(s, pat) ==> RemoveAll(s, pat) == s
    decreases |s|
  {
    if |pat| > 0 && |s| > 0 && !Contains(s, pat) {
      assert !OccursAt(s, pat, 0);
      RemoveAllKeepsFirst(s, pat);
      OccursInTail(s, pat);
      RemoveAllWithoutOccurrence(s[1..], pat);
    }
  }

  /** A leading occurrence of the pattern is deleted. */
  lemma RemoveAllLeading(pat: string, s: string)
    ensures RemoveAll(pat + s, pat) == RemoveAll(s, pat)
  {
    if |pat| > 0 {
      assert (pat + s)[..|pat|] == pat;
      assert (pat + s)[|pat|..] == s;
    }
  }

  /** Without an occurrence at the front, the first character is kept. */
  lemma RemoveAllKeepsFirst(s: string, pat: string)
    requires |pat| > 0 && |s| > 0 && !OccursAt(s, pat, 0)
    ensures RemoveAll(s, pat) == [s[0]] + RemoveAll(s[1..], pat)
  {
    assert |pat| <= |s| ==> s[0..|pat|] == s[..|pat|];
  }

  /** Dropping the first character keeps "no occurrence before `pat`". */
  lemma NoEarlyOccurrenceInTail(a: string, pat: string, b: string)
    requires |a| > 0
    requires forall i :: 0 <= i < |a| ==> !OccursAt(a + pat + b, pat, i)
    ensures forall i :: 0 <= i < |a| - 1 ==> !OccursAt(a[1..] + pat + b, pat, i)
  {
    var s := a + pat + b;
    assert s[1..] == a[1..] + pat + b;
    forall i | 0 <= i < |a| - 1 ensures !OccursAt(a[1..] + pat + b, pat, i) {
      ShiftOccurrence(s, pat, i);
    }
  }

  /** Text before the first occurrence of the pattern is kept as it is, and
      that occurrence is deleted. */
  lemma {:induction false} RemoveAllFirstOccurrence(a: string, pat: string, b: string)
    requires forall i :: 0 <= i < |a| ==> !OccursAt(a + pat + b, pat, i)
    ensures RemoveAll(a + pat + b, pat) == a + RemoveAll(b, pat)
  {
    if |a| == 0 {
      assert a + pat + b == pat + b;
      RemoveAllLeading(pat, b);
    } else if |pat| == 0 {
      assert a + pat + b == a + b;
    } else {
      var s := a + pat + b;
      assert !OccursAt(s, pat, 0);
      RemoveAllKeepsFirst(s, pat);
      assert s[0] == a[0] && s[1..] == a[1..] + pat + b;
      NoEarlyOccurrenceInTail(a, pat, b);
      RemoveAllFirstOccurrence(a[1..], pat, b);
      assert a == [a[0]] + a[1..];
    }
  }
}
