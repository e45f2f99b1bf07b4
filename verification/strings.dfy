/** String operations the converters rely on, with Python's semantics. */
module Strings {
  import opened Wrappers

  predicate StartsWith(s: string, prefix: string) {
    |prefix| <= |s| && s[..|prefix|] == prefix
  }

  /** Python truthiness of an optional string: present and non-empty. */
  predicate Truthy(o: Option<string>) {
    o.Some? && o.value != ""
  }

  // ---------------------------------------------------------------------------
  // First-occurrence substitution: Python's `s.replace(pattern, replacement, 1)`
  // ---------------------------------------------------------------------------

  predicate OccursAt(s: string, pattern: string, i: int) {
    0 <= i && i + |pattern| <= |s| && s[i..i + |pattern|] == pattern
  }

  predicate IsFirstOccurrence(s: string, pattern: string, i: int) {
    OccursAt(s, pattern, i) && forall j :: 0 <= j < i ==> !OccursAt(s, pattern, j)
  }

  /** Occurrences in `s` past index 0 are the occurrences in `s[1..]`, shifted by one. */
  lemma OccursShift(s: string, pattern: string)
    requires |s| > 0
    ensures forall i :: 1 <= i ==> (OccursAt(s, pattern, i) <==> OccursAt(s[1..], pattern, i - 1))
  {
    forall i | 1 <= i
      ensures OccursAt(s, pattern, i) <==> OccursAt(s[1..], pattern, i - 1)
    {
      if i + |pattern| <= |s| {
        assert s[1..][i - 1..i - 1 + |pattern|] == s[i..i + |pattern|];
      }
    }
  }

  /** The first occurrence in `s`, when not at index 0, is the first occurrence in `s[1..]`, shifted. */
  lemma FirstOccurrenceShift(s: string, pattern: string)
    requires |s| > 0 && !OccursAt(s, pattern, 0)
    ensures forall i :: IsFirstOccurrence(s, pattern, i) ==> i >= 1 && IsFirstOccurrence(s[1..], pattern, i - 1)
  {
    OccursShift(s, pattern);
    forall i | IsFirstOccurrence(s, pattern, i)
      ensures i >= 1 && IsFirstOccurrence(s[1..], pattern, i - 1)
    {
      forall j | 0 <= j < i - 1
        ensures !OccursAt(s[1..], pattern, j)
      {
        assert !OccursAt(s, pattern, j + 1);
        assert OccursAt(s, pattern, (j + 1)) <==> OccursAt(s[1..], pattern, (j + 1) - 1);
      }
    }
  }

  /** Replaces the first occurrence of `pattern` anywhere in `s` (not only at
      the start); `s` comes back unchanged when `pattern` does not occur. */
  function ReplaceFirst(s: string, pattern: string, replacement: string): (r: string)
    ensures (forall i :: !OccursAt(s, pattern, i)) ==> r == s
    ensures forall i :: IsFirstOccurrence(s, pattern, i) ==>
              r == s[..i] + replacement + s[i + |pattern|..]
    decreases |s|
  {
    if StartsWith(s, pattern) then
      assert OccursAt(s, pattern, 0);
      replacement + s[|pattern|..]
    else if |s| == 0 then
      s
    else
      var rest := ReplaceFirst(s[1..], pattern, replacement);
      ReplaceFirstStep(s, pattern, replacement, rest);
      [s[0]] + rest
  }

  /** The recursive case of ReplaceFirst: substituting in the tail and putting the
      head back in front is substituting in the whole string. */
  lemma ReplaceFirstStep(s: string, pattern: string, replacement: string, rest: string)
    requires |s| > 0 && !OccursAt(s, pattern, 0)
    requires (forall i :: !OccursAt(s[1..], pattern, i)) ==> rest == s[1..]
    requires forall i :: IsFirstOccurrence(s[1..], pattern, i) ==>
               rest == s[1..][..i] + replacement + s[1..][i + |pattern|..]
    ensures (forall i :: !OccursAt(s, pattern, i)) ==> [s[0]] + rest == s
    ensures forall i :: IsFirstOccurrence(s, pattern, i) ==>
              [s[0]] + rest == s[..i] + replacement + s[i + |pattern|..]
  {
    if forall i :: !OccursAt(s, pattern, i) {
      NoOccurrenceInTail(s, pattern);
      assert [s[0]] + s[1..] == s;
    }
    forall i | IsFirstOccurrence(s, pattern, i)
      ensures [s[0]] + rest == s[..i] + replacement + s[i + |pattern|..]
    {
      FirstOccurrenceInTail(s, pattern, i);
      SpliceInTail(s, pattern, replacement, i);
    }
  }

  lemma FirstOccurrenceInTail(s: string, pattern: string, i: int)
    requires |s| > 0 && !OccursAt(s, pattern, 0)
    requires IsFirstOccurrence(s, pattern, i)
    ensures i >= 1 && IsFirstOccurrence(s[1..], pattern, i - 1)
  {
    FirstOccurrenceShift(s, pattern);
  }

  lemma SpliceInTail(s: string, pattern: string, replacement: string, i: int)
    requires 1 <= i && i + |pattern| <= |s|
    ensures s[..i] + replacement + s[i + |pattern|..]
            == [s[0]] + (s[1..][..i - 1] + replacement + s[1..][i - 1 + |pattern|..])
  {
    assert s[..i] == [s[0]] + s[1..][..i - 1];
    assert s[i + |pattern|..] == s[1..][i - 1 + |pattern|..];
  }

  lemma NoOccurrenceInTail(s: string, pattern: string)
    requires |s| > 0
    requires forall i :: !OccursAt(s, pattern, i)
    ensures forall i :: !OccursAt(s[1..], pattern, i)
  {
    forall j | 0 <= j && j + |pattern| <= |s| - 1
      ensures !OccursAt(s[1..], pattern, j)
    {
      assert !OccursAt(s, pattern, j + 1);
      assert s[1..][j..j + |pattern|] == s[j + 1..j + 1 + |pattern|];
    }
  }

  /** When `s` starts with `pattern`, the substitution happens at the front. */
  lemma ReplaceFirstAtFront(s: string, pattern: string, replacement: string)
    ensures StartsWith(s, pattern) ==> ReplaceFirst(s, pattern, replacement) == replacement + s[|pattern|..]
  {
    if StartsWith(s, pattern) {
      assert IsFirstOccurrence(s, pattern, 0);
    }
  }

  // ---------------------------------------------------------------------------
  // Joining with a separator: Python's `sep.join(parts)`
  // ---------------------------------------------------------------------------

  function Join(parts: seq<string>, sep: string): (r: string)
    ensures |parts| == 1 ==> r == parts[0]
    ensures |parts| == 0 ==> r == ""
  {
    if |parts| == 0 then ""
    else if |parts| == 1 then parts[0]
    else parts[0] + sep + Join(parts[1..], sep)
  }

  /** Python's `s.split(c)` for a one-character separator; always at least one piece. */
  function Split(s: string, c: char): (pieces: seq<string>)
    ensures |pieces| >= 1
  {
    if |s| == 0 then [""]
    else if s[0] == c then [""] + Split(s[1..], c)
    else
      var rest := Split(s[1..], c);
      [[s[0]] + rest[0]] + rest[1..]
  }

  lemma {:induction false} SplitNoSeparator(p: string, c: char)
    requires c !in p
    ensures Split(p, c) == [p]
  {
    if |p| > 0 {
      assert c !in p[1..];
      SplitNoSeparator(p[1..], c);
      assert [p[0]] + p[1..] == p;
    }
  }

  lemma {:induction false} SplitAfterPiece(p: string, c: char, t: string)
    requires c !in p
    ensures Split(p + [c] + t, c) == [p] + Split(t, c)
  {
    if |p| == 0 {
      assert p + [c] + t == [c] + t;
      assert ([c] + t)[1..] == t;
    } else {
      assert c !in p[1..];
      SplitAfterPiece(p[1..], c, t);
      assert (p + [c] + t)[1..] == p[1..] + [c] + t;
      assert [p[0]] + p[1..] == p;
    }
  }

  /** Joining with a one-character separator is undone by splitting on it,
      provided no piece contains the separator. */
  lemma {:induction false} SplitJoin(parts: seq<string>, c: char)
    requires |parts| >= 1
    requires forall k :: 0 <= k < |parts| ==> c !in parts[k]
    ensures Split(Join(parts, [c]), c) == parts
  {
    if |parts| == 1 {
      SplitNoSeparator(parts[0], c);
    } else {
      SplitJoin(parts[1..], c);
      SplitAfterPiece(parts[0], c, Join(parts[1..], [c]));
      assert [parts[0]] + parts[1..] == parts;
    }
  }

  // ---------------------------------------------------------------------------
  // Whitespace stripping: Python's `str.strip()` with no argument
  // ---------------------------------------------------------------------------

  /** The characters for which Python's `str.isspace()` holds. */
  predicate IsSpace(c: char) {
    || ('\t' <= c <= '\r')
    || ('\U{1C}' <= c <= '\U{1F}')
    || c == ' ' || c == '\U{85}' || c == '\U{A0}' || c == '\U{1680}'
    || ('\U{2000}' <= c <= '\U{200A}')
    || c == '\U{2028}' || c == '\U{2029}' || c == '\U{202F}' || c == '\U{205F}'
    || c == '\U{3000}'
  }

  predicate AllSpace(s: string) {
    forall i :: 0 <= i < |s| ==> IsSpace(s[i])
  }

  /** Drops leading whitespace: the result is a suffix of `s`, what was dropped
      is all whitespace, and the result does not start with whitespace. */
  function StripLeft(s: string): (r: string)
    ensures |r| <= |s| && r == s[|s| - |r|..]
    ensures AllSpace(s[..|s| - |r|])
    ensures r == [] || !IsSpace(r[0])
  {
    if |s| > 0 && IsSpace(s[0]) then
      var rest := StripLeft(s[1..]);
      var cut := |s| - |rest|;
      assert s[1..][cut - 1..] == s[cut..];
      assert forall i :: 1 <= i < cut ==> s[i] == s[1..][i - 1];
      assert AllSpace(s[..cut]);
      rest
    else s
  }

  /** Drops trailing whitespace: the result is a prefix of `s`, what was dropped
      is all whitespace, and the result does not end with whitespace. */
  function StripRight(s: string): (r: string)
    ensures |r| <= |s| && r == s[..|r|]
    ensures AllSpace(s[|r|..])
    ensures r == [] || !IsSpace(r[|r| - 1])
  {
    if |s| > 0 && IsSpace(s[|s| - 1]) then
      var rest := StripRight(s[..|s| - 1]);
      assert s[..|s| - 1][|rest|..] == s[|rest|..|s| - 1];
      assert s[..|s| - 1][..|rest|] == s[..|rest|];
      assert s[|rest|..] == s[|rest|..|s| - 1] + [s[|s| - 1]];
      rest
    else s
  }

  /** Python's `s.strip()`: the result is a slice of `s`, everything cut on
      either side is whitespace, and the result neither starts nor ends with
      whitespace. */
  function Strip(s: string): (r: string)
    ensures exists a, b :: 0 <= a <= b <= |s| && r == s[a..b] && AllSpace(s[..a]) && AllSpace(s[b..])
    ensures r == [] || (!IsSpace(r[0]) && !IsSpace(r[|r| - 1]))
  {
    var left := StripLeft(s);
    var r := StripRight(left);
    StripBothSides(s, left, r);
    assert r == [] || r[0] == left[0];
    r
  }

  /** A prefix `r` of a suffix `left` of `s`, with whitespace cut on both
      sides, is a slice of `s` with whitespace cut on both sides. */
  lemma StripBothSides(s: string, left: string, r: string)
    requires |left| <= |s| && left == s[|s| - |left|..] && AllSpace(s[..|s| - |left|])
    requires |r| <= |left| && r == left[..|r|] && AllSpace(left[|r|..])
    ensures var a := |s| - |left|;
            && r == s[a..a + |r|] && AllSpace(s[..a]) && AllSpace(s[a + |r|..])
  {
    SliceOfSuffix(s, |s| - |left|, |r|);
  }

  /** Slicing a suffix is slicing the original further along. */
  lemma SliceOfSuffix(s: string, a: nat, n: nat)
    requires a + n <= |s|
    ensures s[a..][..n] == s[a..a + n] && s[a..][n..] == s[a + n..]
  {
  }

  /** `s.strip()` is empty exactly when `s` is all whitespace (Python's `not s.strip()`). */
  lemma StripEmptyIffAllSpace(s: string)
    ensures Strip(s) == [] <==> AllSpace(s)
  {
    var l := StripLeft(s);
    var cut := |s| - |l|;
    if !AllSpace(s) {
      var i :| 0 <= i < |s| && !IsSpace(s[i]);
      assert l[i - cut] == s[i];
    }
  }
}
