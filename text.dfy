/** String helpers with the meaning Python gives the corresponding `str` operations. */
module Text {

  /** Python's `str.isspace()` for one character. */
  predicate IsSpace(c: char) {
    || c == ' '
    || ('\t' <= c <= '\r')
    || ('\U{1c}' <= c <= '\U{1f}')
    || c == '\U{85}' || c == '\U{a0}' || c == '\U{1680}'
    || ('\U{2000}' <= c <= '\U{200a}')
    || c == '\U{2028}' || c == '\U{2029}' || c == '\U{202f}' || c == '\U{205f}' || c == '\U{3000}'
  }

  /** `c.lower()` restricted to ASCII letters. */
  function LowerChar(c: char): char {
    if 'A' <= c <= 'Z' then (c as int + 32) as char else c
  }

  /** `s.lower()` restricted to ASCII letters. */
  function Lower(s: string): (r: string)
    ensures |r| == |s|
    ensures forall i :: 0 <= i < |s| ==> r[i] == LowerChar(s[i])
  {
    if s == [] then [] else [LowerChar(s[0])] + Lower(s[1..])
  }

  lemma LowerIdempotent(s: string)
    ensures Lower(Lower(s)) == Lower(s)
  {
    forall i | 0 <= i < |s| ensures Lower(Lower(s))[i] == Lower(s)[i] {
      if 'A' <= s[i] <= 'Z' {
        assert 'a' <= LowerChar(s[i]) <= 'z';
      }
    }
  }

  lemma LowerAppend(a: string, b: string)
    ensures Lower(a + b) == Lower(a) + Lower(b)
  {
    var l, r := Lower(a + b), Lower(a) + Lower(b);
    forall i | 0 <= i < |l| ensures l[i] == r[i] {
      if i >= |a| {
        assert (a + b)[i] == b[i - |a|];
      }
    }
  }

  lemma LowerConcat(a: string, b: string, c: string)
    ensures Lower(a + b + c) == Lower(a) + Lower(b) + Lower(c)
  {
    LowerAppend(a, b);
    LowerAppend(a + b, c);
  }

  /** `sub in s`: `sub` occurs as a contiguous piece of `s`. */
  predicate Contains(s: string, sub: string) {
    sub <= s || (|s| > 0 && Contains(s[1..], sub))
  }

  /** Case-insensitive `needle in hay`, as `needle.lower() in hay.lower()`. */
  predicate ContainsCI(hay: string, needle: string) {
    Contains(Lower(hay), Lower(needle))
  }

  /** `any(t in s for t in terms)`. */
  predicate ContainsAny(s: string, terms: seq<string>) {
    exists i :: 0 <= i < |terms| && Contains(s, terms[i])
  }

  lemma {:induction false} ContainsEmpty(s: string)
    ensures Contains(s, "")
  {
  }

  lemma {:induction false} ContainsSelf(s: string)
    ensures Contains(s, s)
  {
  }

  /** An occurrence of `sub` at a known position is an occurrence. */
  lemma {:induction false} ContainsAt(s: string, sub: string, i: nat)
    requires i + |sub| <= |s| && s[i..i + |sub|] == sub
    ensures Contains(s, sub)
  {
    if i > 0 {
      assert s[1..][i - 1..i - 1 + |sub|] == sub;
      ContainsAt(s[1..], sub, i - 1);
    }
  }

  /** An occurrence in a piece of a concatenation is an occurrence in the whole. */
  lemma {:induction false} ContainsInConcat(a: string, b: string, c: string, sub: string)
    requires Contains(b, sub)
    ensures Contains(a + b + c, sub)
    decreases |b|
  {
    if sub <= b {
      var s := a + b + c;
      assert s[|a|..|a| + |sub|] == sub;
      ContainsAt(s, sub, |a|);
    } else {
      ContainsInConcat(a + [b[0]], b[1..], c, sub);
      assert a + [b[0]] + b[1..] + c == a + b + c;
    }
  }

  function StripLeft(s: string): (r: string)
    ensures |r| <= |s| && r == s[|s| - |r|..]
  {
    if |s| > 0 && IsSpace(s[0]) then StripLeft(s[1..]) else s
  }

  function StripRight(s: string): (r: string)
    ensures |r| <= |s| && r == s[..|r|]
  {
    if |s| > 0 && IsSpace(s[|s| - 1]) then StripRight(s[..|s| - 1]) else s
  }

  /** `s.strip()`: drops leading and trailing whitespace. */
  function Strip(s: string): (r: string)
    ensures |r| <= |s|
  {
    StripRight(StripLeft(s))
  }

  /** `sep.join(parts)`. */
  function Join(sep: string, parts: seq<string>): string {
    if |parts| == 0 then ""
    else if |parts| == 1 then parts[0]
    else parts[0] + sep + Join(sep, parts[1..])
  }

  /** `s.replace(pat, "")`: scans left to right, removing non-overlapping occurrences. */
  function RemoveAll(s: string, pat: string): string
    requires |pat| > 0
  {
    if |s| == 0 then ""
    else if pat <= s then RemoveAll(s[|pat|..], pat)
    else [s[0]] + RemoveAll(s[1..], pat)
  }

  /** Removing a piece that does not occur changes nothing. */
  lemma {:induction false} RemoveAllAbsent(s: string, pat: string)
    requires |pat| > 0 && !Contains(s, pat)
    ensures RemoveAll(s, pat) == s
  {
    if |s| > 0 {
      RemoveAllAbsent(s[1..], pat);
    }
  }

  /** Removing pieces never brings in a character: whatever all characters satisfy, the result's do. */
  lemma {:induction false} RemoveAllKeepsChars(s: string, pat: string, keep: char -> bool)
    requires |pat| > 0 && forall i :: 0 <= i < |s| ==> keep(s[i])
    ensures forall i :: 0 <= i < |RemoveAll(s, pat)| ==> keep(RemoveAll(s, pat)[i])
    decreases |s|
  {
    if |s| > 0 {
      if pat <= s {
        RemoveAllKeepsChars(s[|pat|..], pat, keep);
      } else {
        RemoveAllKeepsChars(s[1..], pat, keep);
      }
    }
  }

  /** Keeps, in order, exactly the characters that satisfy `keep`. */
  function FilterChars(s: string, keep: char -> bool): (r: string)
    ensures forall i :: 0 <= i < |r| ==> keep(r[i])
  {
    if |s| == 0 then ""
    else if keep(s[0]) then [s[0]] + FilterChars(s[1..], keep)
    else FilterChars(s[1..], keep)
  }

  lemma {:induction false} FilterCharsAllKept(s: string, keep: char -> bool)
    requires forall i :: 0 <= i < |s| ==> keep(s[i])
    ensures FilterChars(s, keep) == s
  {
    if |s| > 0 {
      FilterCharsAllKept(s[1..], keep);
    }
  }

  /** `a` can be obtained from `b` by deleting characters. */
  predicate IsSubsequence(a: string, b: string) {
    a == [] || (|b| > 0 && ((a[0] == b[0] && IsSubsequence(a[1..], b[1..])) || IsSubsequence(a, b[1..])))
  }

  lemma {:induction false} SubsequenceRefl(a: string)
    ensures IsSubsequence(a, a)
  {
    if a != [] {
      SubsequenceRefl(a[1..]);
    }
  }

  lemma {:induction false} SubsequenceTrans(a: string, b: string, c: string)
    requires IsSubsequence(a, b) && IsSubsequence(b, c)
    ensures IsSubsequence(a, c)
    decreases |c|
  {
    if a != [] {
      if b[0] == c[0] && IsSubsequence(b[1..], c[1..]) {
        if a[0] == b[0] && IsSubsequence(a[1..], b[1..]) {
          SubsequenceTrans(a[1..], b[1..], c[1..]);
        } else {
          SubsequenceTrans(a, b[1..], c[1..]);
        }
      } else {
        SubsequenceTrans(a, b, c[1..]);
      }
    }
  }

  lemma {:induction false} SubsequenceLength(a: string, b: string)
    requires IsSubsequence(a, b)
    ensures |a| <= |b|
    decreases |b|
  {
    if a != [] {
      if a[0] == b[0] && IsSubsequence(a[1..], b[1..]) {
        SubsequenceLength(a[1..], b[1..]);
      } else {
        SubsequenceLength(a, b[1..]);
      }
    }
  }

  /** Prepending a character to the larger string keeps the relation. */
  lemma {:induction false} SubsequenceConsRight(a: string, c: char, b: string)
    requires IsSubsequence(a, b)
    ensures IsSubsequence(a, [c] + b)
  {
    assert ([c] + b)[1..] == b;
  }

  lemma {:induction false} SubsequenceCons(c: char, a: string, b: string)
    requires IsSubsequence(a, b)
    ensures IsSubsequence([c] + a, [c] + b)
  {
    assert ([c] + a)[1..] == a;
    assert ([c] + b)[1..] == b;
  }

  lemma {:induction false} RemoveAllSubsequence(s: string, pat: string)
    requires |pat| > 0
    ensures IsSubsequence(RemoveAll(s, pat), s)
    decreases |s|
  {
    if |s| == 0 {
    } else if pat <= s {
      RemoveAllSubsequence(s[|pat|..], pat);
      DropPrefixSubsequence(RemoveAll(s[|pat|..], pat), s, |pat|);
    } else {
      RemoveAllSubsequence(s[1..], pat);
      SubsequenceCons(s[0], RemoveAll(s[1..], pat), s[1..]);
      assert [s[0]] + s[1..] == s;
    }
  }

  /** A subsequence of a suffix is a subsequence of the whole. */
  lemma {:induction false} DropPrefixSubsequence(a: string, s: string, k: nat)
    requires k <= |s| && IsSubsequence(a, s[k..])
    ensures IsSubsequence(a, s)
    decreases k
  {
    if k > 0 {
      assert s[1..][k - 1..] == s[k..];
      DropPrefixSubsequence(a, s[1..], k - 1);
      SubsequenceConsRight(a, s[0], s[1..]);
      assert [s[0]] + s[1..] == s;
    }
  }

  lemma {:induction false} FilterCharsSubsequence(s: string, keep: char -> bool)
    ensures IsSubsequence(FilterChars(s, keep), s)
    decreases |s|
  {
    if |s| > 0 {
      FilterCharsSubsequence(s[1..], keep);
      if keep(s[0]) {
        SubsequenceCons(s[0], FilterChars(s[1..], keep), s[1..]);
      } else {
        SubsequenceConsRight(FilterChars(s[1..], keep), s[0], s[1..]);
      }
      assert [s[0]] + s[1..] == s;
    }
  }

  function DigitChar(d: nat): char
    requires d < 10
  {
    "0123456789"[d]
  }

  /** `str(n)` for a natural number. */
  function NatToString(n: nat): (r: string)
    ensures |r| > 0
    decreases n
  {
    if n < 10 then [DigitChar(n)] else NatToString(n / 10) + [DigitChar(n % 10)]
  }

  /** `str(i)` for an integer. */
  function IntToString(i: int): (r: string)
    ensures |r| > 0
  {
    if i < 0 then "-" + NatToString(-i) else NatToString(i)
  }

  /** `s[:n]` on a list. */
  function Take<T>(s: seq<T>, n: nat): (r: seq<T>)
    ensures |r| <= n && |r| <= |s| && r == s[..|r|]
    ensures |s| <= n ==> r == s
  {
    if |s| <= n then s else s[..n]
  }
}
