/**
 * The input and output guardrails and the file-path sanitiser. The harmful-content
 * patterns are case-insensitive alternations of literal words, so each is a
 * case-insensitive substring test for any of its words.
 */
module Guardrails {
  import opened Text

  /** The `(bool, str)` pair both checks return. */
  datatype Verdict = Verdict(ok: bool, message: string)

  /** Every alternative of the three harmful patterns, in pattern order. */
  const HarmfulTerms: seq<string> := [
    "hack", "exploit", "vulnerability", "malware", "virus",
    "sql injection", "xss", "ddos",
    "personal data", "ssn", "credit card"
  ]

  const MinInputLength: nat := 3
  const MaxInputLength: nat := 10000

  const TooShort := "Input too short"
  const TooLong := "Input too long (max 10,000 chars)"
  const HarmfulContent := "Input contains potentially harmful content"
  const Accepted := "OK"
  const Declined := "Model declined to answer"

  /** Some harmful pattern matches somewhere in the text, in any letter case. */
  predicate Harmful(text: string) {
    ContainsAny(Lower(text), HarmfulTerms)
  }

  /** `check_input_safety`: the checks in order, the first failing one deciding. */
  function CheckInputSafety(text: string): (r: Verdict)
    ensures r.ok <==> MinInputLength <= |Strip(text)| && |text| <= MaxInputLength && !Harmful(text)
    ensures r.message == (if r.ok then Accepted
                          else if |Strip(text)| < MinInputLength then TooShort
                          else if |text| > MaxInputLength then TooLong
                          else HarmfulContent)
  {
    if text == [] || |Strip(text)| < MinInputLength then Verdict(false, TooShort)
    else if |text| > MaxInputLength then Verdict(false, TooLong)
    else if Harmful(text) then Verdict(false, HarmfulContent)
    else Verdict(true, Accepted)
  }

  /** Lower-casing a character never turns it into whitespace or out of it. */
  lemma LowerKeepsSpace(c: char)
    ensures IsSpace(LowerChar(c)) == IsSpace(c)
  {
    if 'A' <= c <= 'Z' {
      assert 'a' <= LowerChar(c) <= 'z';
    }
  }

  lemma {:induction false} StripLeftLower(s: string)
    ensures StripLeft(Lower(s)) == Lower(StripLeft(s))
  {
    if |s| > 0 {
      LowerKeepsSpace(s[0]);
      assert Lower(s)[0] == LowerChar(s[0]);
      if IsSpace(s[0]) {
        assert Lower(s)[1..] == Lower(s[1..]);
        StripLeftLower(s[1..]);
      }
    }
  }

  lemma {:induction false} StripRightLower(s: string)
    ensures StripRight(Lower(s)) == Lower(StripRight(s))
  {
    if |s| > 0 {
      LowerKeepsSpace(s[|s| - 1]);
      assert Lower(s)[|s| - 1] == LowerChar(s[|s| - 1]);
      if IsSpace(s[|s| - 1]) {
        assert Lower(s)[..|s| - 1] == Lower(s[..|s| - 1]);
        StripRightLower(s[..|s| - 1]);
      }
    }
  }

  /** The input verdict ignores letter case: the text and its lower-cased form get the same answer. */
  lemma InputCheckIgnoresCase(text: string)
    ensures CheckInputSafety(Lower(text)) == CheckInputSafety(text)
  {
    var l := Lower(text);
    assert |Strip(l)| == |Strip(text)| by {
      StripLeftLower(text);
      StripRightLower(StripLeft(text));
    }
    assert Harmful(l) == Harmful(text) by {
      LowerIdempotent(text);
    }
    assert (l == [] || |Strip(l)| < MinInputLength) == (text == [] || |Strip(text)| < MinInputLength);
    assert (|l| > MaxInputLength) == (|text| > MaxInputLength);
  }

  /** Harmful words are found wherever they sit and in whatever case they are written. */
  lemma HarmfulAnywhere(a: string, b: string, c: string)
    requires Harmful(b)
    ensures Harmful(a + b + c)
  {
    var k :| 0 <= k < |HarmfulTerms| && Contains(Lower(b), HarmfulTerms[k]);
    var term := HarmfulTerms[k];
    ContainsInConcat(Lower(a), Lower(b), Lower(c), term);
    LowerConcat(a, b, c);
    assert Contains(Lower(a + b + c), term);
  }

  // ---------------------------------------------------------------------------
  // check_output_quality
  // ---------------------------------------------------------------------------

  const DefaultMinOutputLength: int := 50

  function OutputTooShort(minLength: int): string {
    "Output too short (min " + IntToString(minLength) + " chars)"
  }

  /** A refusal phrase, matched case-sensitively. */
  predicate Refuses(text: string) {
    Contains(text, "I cannot") || Contains(text, "I'm unable to")
  }

  /** `check_output_quality`. */
  function CheckOutputQuality(text: string, minLength: int): (r: Verdict)
    ensures r.ok <==> text != [] && |Strip(text)| >= minLength && !Refuses(text)
    ensures !r.ok && (text == [] || |Strip(text)| < minLength) ==> r.message == OutputTooShort(minLength)
    ensures !r.ok && text != [] && |Strip(text)| >= minLength ==> r.message == Declined
    ensures r.ok ==> r.message == Accepted
  {
    if text == [] || |Strip(text)| < minLength then Verdict(false, OutputTooShort(minLength))
    else if Refuses(text) then Verdict(false, Declined)
    else Verdict(true, Accepted)
  }

  /** An empty answer is rejected as too short whatever the minimum, even zero or negative. */
  lemma EmptyOutputAlwaysTooShort(minLength: int)
    ensures CheckOutputQuality("", minLength) == Verdict(false, OutputTooShort(minLength))
  {
  }

  /**
   * With the default minimum, an accepted answer has at least 50 characters, and
   * a shorter one is refused with "Output too short (min 50 chars)".
   */
  lemma DefaultMinimumIsFifty(text: string)
    ensures CheckOutputQuality(text, DefaultMinOutputLength).ok ==> |text| >= 50
    ensures |Strip(text)| < 50 ==>
      CheckOutputQuality(text, DefaultMinOutputLength) == Verdict(false, "Output too short (min 50 chars)")
  {
    assert IntToString(50) == "50" by {
      assert NatToString(50) == NatToString(5) + [DigitChar(0)];
    }
  }

  /** A refusal anywhere in a long enough answer makes it declined. */
  lemma RefusalAnywhereDeclines(a: string, b: string, minLength: int)
    requires |Strip(a + "I cannot" + b)| >= minLength
    ensures CheckOutputQuality(a + "I cannot" + b, minLength) == Verdict(false, Declined)
  {
    ContainsSelf("I cannot");
    ContainsInConcat(a, "I cannot", b, "I cannot");
  }

  // ---------------------------------------------------------------------------
  // sanitize_file_path
  // ---------------------------------------------------------------------------

  /** The character class `[a-zA-Z0-9\-_./\\]`. */
  predicate AllowedPathChar(c: char) {
    || ('a' <= c <= 'z') || ('A' <= c <= 'Z') || ('0' <= c <= '9')
    || c == '-' || c == '_' || c == '.' || c == '/' || c == '\\'
  }

  /** `sanitize_file_path`: drop "..", then "~", then every character outside the class. */
  function SanitizeFilePath(path: string): (r: string)
    ensures forall i :: 0 <= i < |r| ==> AllowedPathChar(r[i])
    ensures '~' !in r
  {
    FilterChars(RemoveAll(RemoveAll(path, ".."), "~"), AllowedPathChar)
  }

  /** The result only deletes characters of the input, so it is never longer. */
  lemma SanitizeOnlyDeletes(path: string)
    ensures IsSubsequence(SanitizeFilePath(path), path)
    ensures |SanitizeFilePath(path)| <= |path|
  {
    var once := RemoveAll(path, "..");
    var twice := RemoveAll(once, "~");
    RemoveAllSubsequence(path, "..");
    RemoveAllSubsequence(once, "~");
    FilterCharsSubsequence(twice, AllowedPathChar);
    SubsequenceTrans(twice, once, path);
    SubsequenceTrans(SanitizeFilePath(path), twice, path);
    SubsequenceLength(SanitizeFilePath(path), path);
  }

  /** A path of allowed characters with no ".." in it comes back unchanged. */
  lemma SanitizeKeepsCleanPath(path: string)
    requires forall i :: 0 <= i < |path| ==> AllowedPathChar(path[i])
    requires !Contains(path, "..")
    ensures SanitizeFilePath(path) == path
  {
    assert RemoveAll(path, "..") == path by {
      RemoveAllAbsent(path, "..");
    }
    assert RemoveAll(path, "~") == path by {
      AllowedHasNoTilde(path);
      RemoveAllAbsent(path, "~");
    }
    assert FilterChars(path, AllowedPathChar) == path by {
      FilterCharsAllKept(path, AllowedPathChar);
    }
  }

  /**
   * The evidently intended sanitiser: drop the characters outside the class first
   * (which drops "~" too), then remove "..", so no later step can join two dots.
   */
  function SanitizeFilePathIntended(path: string): (r: string)
    ensures forall i :: 0 <= i < |r| ==> AllowedPathChar(r[i])
    ensures !Contains(r, "..")
  {
    var kept := FilterChars(path, AllowedPathChar);
    RemoveAllKeepsChars(kept, "..", AllowedPathChar);
    RemoveDotsLeavesNoDots(kept);
    RemoveAll(kept, "..")
  }

  /**
   * Removing ".." left to right leaves no ".." behind: a dot that stays is never
   * followed by a dot. A text not starting with a dot keeps its first character.
   */
  lemma {:induction false} RemoveDotsLeavesNoDots(s: string)
    ensures !Contains(RemoveAll(s, ".."), "..")
    ensures |s| > 0 && s[0] != '.' ==> RemoveAll(s, "..") != [] && RemoveAll(s, "..")[0] == s[0]
    decreases |s|
  {
    if |s| > 0 {
      if ".." <= s {
        RemoveDotsLeavesNoDots(s[2..]);
      } else {
        var rest := RemoveAll(s[1..], "..");
        RemoveDotsLeavesNoDots(s[1..]);
        assert RemoveAll(s, "..") == [s[0]] + rest;
        if s[0] == '.' && |s| > 1 {
          assert s[1] != '.';
        }
        assert !(".." <= [s[0]] + rest);
        assert ([s[0]] + rest)[1..] == rest;
      }
    }
  }

  lemma AllowedHasNoTilde(s: string)
    requires forall i :: 0 <= i < |s| ==> AllowedPathChar(s[i])
    ensures !Contains(s, "~")
  {
    NoTildeNotContained(s);
  }

  lemma {:induction false} NoTildeNotContained(s: string)
    requires forall i :: 0 <= i < |s| ==> s[i] != '~'
    ensures !Contains(s, "~")
  {
    if |s| > 0 {
      assert s[0] != "~"[0];
      NoTildeNotContained(s[1..]);
    }
  }

  /** ".." is removed before "~", so dots separated by a tilde join up again. */
  lemma TildeCanRejoinDots()
    ensures SanitizeFilePath(".~.") == ".."
  {
    assert RemoveAll(".~.", "..") == ".~." by {
      assert !(".." <= ".~.");
      assert !(".." <= "~.");
      assert !(".." <= ".");
    }
    assert RemoveAll(".~.", "~") == ".." by {
      assert !("~" <= ".~.");
      assert "~" <= "~.";
      assert !("~" <= ".");
    }
  }
}
