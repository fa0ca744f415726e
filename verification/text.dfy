/**
 The string operations the inference pipeline applies to text: Python's
 `str.strip()` (removal of leading and trailing Unicode whitespace) and
 `str.replace(marker, "")` (a single left-to-right pass deleting
 non-overlapping occurrences of a non-empty marker).
 */
module Text {

  /** Python's `str.isspace` for one character: the characters CPython's
      `str.strip()` removes when called without arguments. */
  predicate IsSpace(c: char) {
    || c == ' ' || c == '\t' || c == '\n' || c == '\r'
    || c == '\U{000B}' || c == '\U{000C}'
    || ('\U{001C}' <= c <= '\U{001F}')
    || c == '\U{0085}' || c == '\U{00A0}' || c == '\U{1680}'
    || ('\U{2000}' <= c <= '\U{200A}')
    || c == '\U{2028}' || c == '\U{2029}' || c == '\U{202F}' || c == '\U{205F}'
    || c == '\U{3000}'
  }

  predicate AllSpace(s: string) {
    forall i :: 0 <= i < |s| ==> IsSpace(s[i])
  }

  /** Neither end of `s` is whitespace: the shape of every `strip()` result. */
  predicate Trimmed(s: string) {
    s == [] || (!IsSpace(s[0]) && !IsSpace(s[|s| - 1]))
  }

  /** Number of whitespace characters at the start of `s`. */
  function Leading(s: string): (n: nat)
    ensures n <= |s|
    ensures AllSpace(s[..n])
    ensures n < |s| ==> !IsSpace(s[n])
    decreases |s|
  {
    if |s| > 0 && IsSpace(s[0]) then 1 + Leading(s[1..]) else 0
  }

  /** Number of whitespace characters at the end of `s`. */
  function Trailing(s: string): (n: nat)
    ensures n <= |s|
    ensures AllSpace(s[|s| - n..])
    ensures n < |s| ==> !IsSpace(s[|s| - n - 1])
    decreases |s|
  {
    if |s| > 0 && IsSpace(s[|s| - 1]) then 1 + Trailing(s[..|s| - 1]) else 0
  }

  /** Python's `s.strip()`. */
  function Strip(s: string): (r: string)
    ensures Trimmed(r)
    ensures |r| <= |s|
  {
    var rest := s[Leading(s)..];
    rest[..|rest| - Trailing(rest)]
  }

  /** `s` is `r` surrounded by whitespace on both sides. */
  predicate Padded(s: string, r: string) {
    |r| <= |s| &&
    var k := Leading(s);
    k + |r| <= |s| && s[k..k + |r|] == r && AllSpace(s[..k]) && AllSpace(s[k + |r|..])
  }

  /** Whatever `strip()` removes is whitespace: `s` is its result padded on both sides. */
  lemma StripPadded(s: string)
    ensures Padded(s, Strip(s))
  {
    var k := Leading(s);
    var rest := s[k..];
    var t := Trailing(rest);
    var r := rest[..|rest| - t];
    assert r == Strip(s);
    assert s[k..k + |r|] == r;
    assert s[k + |r|..] == rest[|rest| - t..];
  }

  lemma {:induction false} LeadingOfSpacePrefix(a: string, x: string)
    requires AllSpace(a)
    ensures Leading(a + x) == |a| + Leading(x)
    decreases |a|
  {
    if |a| > 0 {
      assert (a + x)[1..] == a[1..] + x;
      LeadingOfSpacePrefix(a[1..], x);
    } else {
      assert a + x == x;
    }
  }

  lemma {:induction false} TrailingOfSpaceSuffix(x: string, b: string)
    requires AllSpace(b)
    ensures Trailing(x + b) == Trailing(x) + |b|
    decreases |b|
  {
    if |b| > 0 {
      assert (x + b)[..|x + b| - 1] == x + b[..|b| - 1];
      TrailingOfSpaceSuffix(x, b[..|b| - 1]);
    } else {
      assert x + b == x;
    }
  }

  /** `strip()` undoes any whitespace padding of an already trimmed string. */
  lemma StripOfPadding(a: string, x: string, b: string)
    requires AllSpace(a) && AllSpace(b) && Trimmed(x)
    ensures Strip(a + x + b) == x
  {
    var s := a + x + b;
    assert s == a + (x + b);
    LeadingOfSpacePrefix(a, x + b);
    if x == [] {
      assert x + b == b;
      assert Leading(b) == |b|;
      assert s[Leading(s)..] == [];
    } else {
      assert Leading(x) == 0;
      assert s[Leading(s)..] == x + b;
      TrailingOfSpaceSuffix(x, b);
      assert Trailing(x) == 0;
      assert (x + b)[..|x + b| - |b|] == x;
    }
  }

  /** Stripping twice is stripping once. */
  lemma StripIdempotent(s: string)
    ensures Strip(Strip(s)) == Strip(s)
  {
    var r := Strip(s);
    assert [] + r + [] == r;
    StripOfPadding([], r, []);
  }

  /** Python's `not s.strip()`: the string is empty or whitespace only. */
  lemma StripEmptyIffBlank(s: string)
    ensures Strip(s) == [] <==> AllSpace(s)
  {
    StripPadded(s);
    var k := Leading(s);
    if Strip(s) == [] {
      assert k == |s|;
      forall i | 0 <= i < |s|
        ensures IsSpace(s[i])
      {
        assert s[i] == s[..k][i];
      }
    }
  }

  /** `pat` occurs somewhere in `s`. */
  predicate Occurs(s: string, pat: string)
    requires |pat| > 0
    decreases |s|
  {
    |pat| <= |s| && (s[..|pat|] == pat || Occurs(s[1..], pat))
  }

  /** Python's `s.replace(pat, "")`: scanning left to right, every
      occurrence of `pat` that does not overlap an earlier removed one is
      deleted. */
  function Remove(s: string, pat: string): (r: string)
    requires |pat| > 0
    ensures |r| <= |s|
    decreases |s|
  {
    if |s| < |pat| then s
    else if s[..|pat|] == pat then Remove(s[|pat|..], pat)
    else [s[0]] + Remove(s[1..], pat)
  }

  /** A removal pass changes the text exactly when the marker occurs in it. */
  lemma {:induction false} RemoveChangesIffOccurs(s: string, pat: string)
    requires |pat| > 0
    ensures Remove(s, pat) == s <==> !Occurs(s, pat)
    decreases |s|
  {
    if |s| >= |pat| && s[..|pat|] != pat {
      RemoveChangesIffOccurs(s[1..], pat);
      assert s == [s[0]] + s[1..];
    }
  }

  /** Where `pat` starts the text, the pass drops it and resumes after it. */
  lemma RemoveHit(pat: string, b: string)
    requires |pat| > 0
    ensures Remove(pat + b, pat) == Remove(b, pat)
  {
    assert (pat + b)[..|pat|] == pat;
    assert (pat + b)[|pat|..] == b;
  }

  /** Where `pat` does not start the text, the first character is kept. */
  lemma RemoveSkip(s: string, pat: string)
    requires |pat| > 0 && |pat| <= |s| && s[..|pat|] != pat
    ensures Remove(s, pat) == [s[0]] + Remove(s[1..], pat)
  {
  }

  /** The pass as `str.find` drives it: when the first occurrence of `pat`
      starts right after `a` (no occurrence lies within `a` followed by all
      but the last character of `pat`), `a` is kept, that occurrence is
      dropped, and the scan resumes after it. */
  lemma {:induction false} RemoveAtFirstOccurrence(a: string, pat: string, b: string)
    requires |pat| > 0
    requires !Occurs(a + pat[..|pat| - 1], pat)
    ensures Remove(a + pat + b, pat) == a + Remove(b, pat)
    decreases |a|
  {
    if a == [] {
      assert a + pat + b == pat + b;
      RemoveHit(pat, b);
    } else {
      var x := a + pat[..|pat| - 1];
      var s := a + pat + b;
      assert x[..|pat|] == s[..|pat|];
      assert x[1..] == a[1..] + pat[..|pat| - 1];
      assert s[1..] == a[1..] + pat + b;
      RemoveSkip(s, pat);
      RemoveAtFirstOccurrence(a[1..], pat, b);
      assert a + Remove(b, pat) == [a[0]] + (a[1..] + Remove(b, pat));
    }
  }

  /** One pass can re-form the marker it removes: deleting `<pad>` from
      `<pa<pad>d>` leaves `<pad>`. */
  lemma RemoveCanReformMarker()
    ensures Remove("<pa<pad>d>", "<pad>") == "<pad>"
    ensures Occurs(Remove("<pa<pad>d>", "<pad>"), "<pad>")
  {
    var s := "<pa<pad>d>";
    assert s[..5][3] != "<pad>"[3];
    assert s[1..][..5][2] != "<pad>"[2];
    assert s[2..][..5][1] != "<pad>"[1];
    assert s[3..][..5] == "<pad>";
    assert s[3..][5..] == "d>";
    assert Remove("d>", "<pad>") == "d>";
    assert Remove(s[3..], "<pad>") == "d>";
    assert Remove(s[2..], "<pad>") == "ad>";
    assert Remove(s[1..], "<pad>") == "pad>";
    assert Remove(s, "<pad>") == "<pad>";
    assert "<pad>"[..5] == "<pad>";
  }
}
