/** The answer comparison shared by the test runner and the grading service:
    `a.toLowerCase().trim() === b.toLowerCase().trim()`, where a missing answer
    (`undefined?.…`) never equals a string. Lower-casing is ASCII only; trimming
    removes exactly the ECMAScript white-space and line-terminator characters. */
module Text {
  import opened Types

  /** ECMAScript WhiteSpace and LineTerminator code points, the set `trim` strips. */
  predicate IsSpace(c: char) {
    || c == '\t' || c == '\n' || c == '\U{000B}' || c == '\U{000C}' || c == '\r'
    || c == ' ' || c == '\U{00A0}' || c == '\U{1680}'
    || ('\U{2000}' <= c <= '\U{200A}')
    || c == '\U{2028}' || c == '\U{2029}' || c == '\U{202F}' || c == '\U{205F}'
    || c == '\U{3000}' || c == '\U{FEFF}'
  }

  predicate IsUpper(c: char) {
    'A' <= c <= 'Z'
  }

  function LowerChar(c: char): (r: char)
    ensures !IsUpper(r)
    ensures IsUpper(c) ==> r as int == c as int + ('a' as int - 'A' as int)
    ensures !IsUpper(c) ==> r == c
    ensures IsSpace(r) <==> IsSpace(c)
  {
    if IsUpper(c) then (c as int + 32) as char else c
  }

  /** `toLowerCase`, restricted to ASCII letters. */
  function Lower(s: string): (r: string)
    ensures |r| == |s|
    ensures forall i :: 0 <= i < |s| ==> r[i] == LowerChar(s[i])
  {
    if s == [] then [] else [LowerChar(s[0])] + Lower(s[1..])
  }

  /** Drops the leading white space. */
  function TrimStart(s: string): string {
    if s != [] && IsSpace(s[0]) then TrimStart(s[1..]) else s
  }

  /** Drops the trailing white space. */
  function TrimEnd(s: string): string {
    if s != [] && IsSpace(s[|s| - 1]) then TrimEnd(s[..|s| - 1]) else s
  }

  /** `trim`. Its properties are stated by `TrimSpec`, not as postconditions,
      so that a comparison of trimmed strings stays cheap to reason about. */
  function Trim(s: string): string {
    TrimEnd(TrimStart(s))
  }

  /** TrimStart drops the longest white-space prefix and nothing else. */
  lemma {:induction false} TrimStartSpec(s: string)
    ensures var r := TrimStart(s);
      && |r| <= |s| && r == s[|s| - |r|..]
      && (forall i :: 0 <= i < |s| - |r| ==> IsSpace(s[i]))
      && (r == [] || !IsSpace(r[0]))
  {
    if s != [] && IsSpace(s[0]) {
      var t := s[1..];
      TrimStartSpec(t);
      var r := TrimStart(t);
      assert TrimStart(s) == r;
      assert t[|t| - |r|..] == s[|s| - |r|..];
      forall i | 0 <= i < |s| - |r|
        ensures IsSpace(s[i])
      {
        if i > 0 {
          assert s[i] == t[i - 1];
        }
      }
    }
  }

  /** TrimEnd drops the longest white-space suffix and nothing else. */
  lemma {:induction false} TrimEndSpec(s: string)
    ensures var r := TrimEnd(s);
      && |r| <= |s| && r == s[..|r|]
      && (forall i :: |r| <= i < |s| ==> IsSpace(s[i]))
      && (r == [] || !IsSpace(r[|r| - 1]))
  {
    if s != [] && IsSpace(s[|s| - 1]) {
      TrimEndSpec(s[..|s| - 1]);
    }
  }

  /** `trim` keeps the slice `s[k..k + |r|]` of its input, where everything
      before and after it is white space, and the slice neither starts nor
      ends with white space. */
  lemma TrimSpec(s: string)
    ensures |TrimStart(s)| <= |s|
    ensures var r, k := Trim(s), |s| - |TrimStart(s)|;
      && k + |r| <= |s| && r == s[k..k + |r|]
      && (forall i :: 0 <= i < k ==> IsSpace(s[i]))
      && (forall i :: k + |r| <= i < |s| ==> IsSpace(s[i]))
      && (r == [] || (!IsSpace(r[0]) && !IsSpace(r[|r| - 1])))
  {
    var t := TrimStart(s);
    TrimStartSpec(s);
    TrimEndSpec(t);
  }

  /** `x.toLowerCase().trim()`. */
  function Normalize(s: string): string {
    Trim(Lower(s))
  }

  /** A string that does not start or end with white space is its own trim. */
  lemma TrimOfTrimmed(s: string)
    requires s == [] || (!IsSpace(s[0]) && !IsSpace(s[|s| - 1]))
    ensures Trim(s) == s
  {
  }

  /** A string without upper-case letters is its own lower-casing. */
  lemma LowerOfLower(s: string)
    requires forall i :: 0 <= i < |s| ==> !IsUpper(s[i])
    ensures Lower(s) == s
  {
  }

  /** A lower-cased string has no upper-case letter, and neither has any slice of it. */
  lemma NoUpperInSlice(s: string, k: nat, t: string)
    requires k + |t| <= |s| && t == Lower(s)[k..k + |t|]
    ensures forall i :: 0 <= i < |t| ==> !IsUpper(t[i])
  {
  }

  /** Normalising twice is normalising once, so comparing normalised strings is
      an equivalence that normalised strings already satisfy. */
  lemma NormalizeIdempotent(s: string)
    ensures Normalize(Normalize(s)) == Normalize(s)
  {
    var l := Lower(s);
    var t := Trim(l);
    TrimSpec(l);
    var k := |l| - |TrimStart(l)|;
    NoUpperInSlice(s, k, t);
    LowerOfLower(t);
    TrimOfTrimmed(t);
    calc {
      Normalize(Normalize(s));
      Normalize(t);
      Trim(Lower(t));
      Trim(t);
      t;
    }
  }

  /** The recorded answer `given`, possibly missing, matches the accepted
      answer; a missing answer matches nothing. */
  predicate SameAnswer(given: Option<string>, accepted: string): (b: bool)
    ensures b ==> given.Some?
  {
    given.Some? && Normalize(given.value) == Normalize(accepted)
  }

  /** The comparison is symmetric: it does not matter which side is the accepted answer. */
  lemma SameAnswerSymmetric(a: string, b: string)
    ensures SameAnswer(Some(a), b) <==> SameAnswer(Some(b), a)
  {
  }

  /** Distinct upper-case letters stay distinct after lower-casing, so answers
      differing in one letter, in any case, do not match. */
  lemma LowerCharInjectiveOnLetters(c: char, d: char)
    requires IsUpper(c) && IsUpper(d) && c != d
    ensures LowerChar(c) != LowerChar(d)
  {
  }

  /** Case and surrounding white space do not matter, in either argument. */
  lemma SameAnswerIgnoresNormalization(given: string, accepted: string)
    ensures SameAnswer(Some(Normalize(given)), accepted) == SameAnswer(Some(given), accepted)
    ensures SameAnswer(Some(given), Normalize(accepted)) == SameAnswer(Some(given), accepted)
  {
    NormalizeIdempotent(given);
    NormalizeIdempotent(accepted);
  }
}
