/**
 * The three JavaScript string operations the chatbot relies on:
 * `String.prototype.toLowerCase`, `String.prototype.includes` and
 * `String.prototype.trim`. Lower-casing is modelled as ASCII folding.
 */
module JsString {

  /** ASCII upper-case letters fold to lower case; every other character is kept. */
  function LowerChar(c: char): char
  {
    if 'A' <= c <= 'Z' then (c as int + 32) as char else c
  }

  predicate IsUpperAscii(c: char)
  {
    'A' <= c <= 'Z'
  }

  /** `s.toLowerCase()` under ASCII folding. */
  function ToLowerCase(s: string): string
  {
    seq(|s|, i requires 0 <= i < |s| => LowerChar(s[i]))
  }

  /** A string that lower-casing leaves alone: it holds no upper-case letter. */
  predicate IsLowerCase(s: string)
  {
    forall i | 0 <= i < |s| :: !IsUpperAscii(s[i])
  }

  lemma ToLowerCaseIsLowerCase(s: string)
    ensures |ToLowerCase(s)| == |s|
    ensures IsLowerCase(ToLowerCase(s))
  {
  }

  /** Lower-casing fixes exactly the strings that hold no upper-case letter. */
  lemma ToLowerCaseFixes(s: string)
    ensures ToLowerCase(s) == s <==> IsLowerCase(s)
  {
    if ToLowerCase(s) == s {
      forall i | 0 <= i < |s| ensures !IsUpperAscii(s[i]) {
        assert ToLowerCase(s)[i] == LowerChar(s[i]);
      }
    }
  }

  lemma ToLowerCaseIdempotent(s: string)
    ensures ToLowerCase(ToLowerCase(s)) == ToLowerCase(s)
  {
    ToLowerCaseIsLowerCase(s);
    ToLowerCaseFixes(ToLowerCase(s));
  }

  /** Lower-casing commutes with taking a slice. */
  lemma ToLowerCaseSlice(s: string, a: nat, b: nat)
    requires a <= b <= |s|
    ensures ToLowerCase(s[a..b]) == ToLowerCase(s)[a..b]
  {
  }

  /** Lower-casing a given string, character by character. */
  lemma ToLowerCaseChars(s: string, t: string)
    requires |s| == |t| && forall i | 0 <= i < |s| :: LowerChar(s[i]) == t[i]
    ensures ToLowerCase(s) == t
  {
  }

  /** `k` occurs in `s` starting at position `p`. */
  predicate OccursAt(s: string, k: string, p: int)
  {
    0 <= p && p + |k| <= |s| && s[p..p + |k|] == k
  }

  /** `s.includes(k)`: `k` occurs somewhere in `s` as a contiguous substring. */
  predicate Includes(s: string, k: string)
  {
    exists p | 0 <= p <= |s| - |k| :: OccursAt(s, k, p)
  }

  /** `k` occurs in `s` when `s` holds the characters of `k` from position `p` on. */
  lemma IncludesAt(s: string, k: string, p: nat)
    requires p + |k| <= |s| && forall i | 0 <= i < |k| :: s[p + i] == k[i]
    ensures Includes(s, k)
  {
    assert s[p..p + |k|] == k;
    assert OccursAt(s, k, p);
  }

  /** The empty string occurs in every string; nothing else occurs in the empty string. */
  lemma IncludesEmpty(s: string, k: string)
    ensures Includes(s, [])
    ensures k != [] ==> !Includes([], k)
  {
    assert OccursAt(s, [], 0);
  }

  lemma SliceOfSlice(s: string, a: nat, b: nat, c: nat, d: nat)
    requires a <= b <= |s| && c <= d <= b - a
    ensures s[a..b][c..d] == s[a + c..a + d]
  {
    assert forall i | 0 <= i < d - c :: s[a..b][c..d][i] == s[a + c + i];
  }

  /** Containment is transitive: an occurrence of an occurrence is an occurrence. */
  lemma IncludesTransitive(s: string, k: string, j: string)
    requires Includes(s, k) && Includes(k, j)
    ensures Includes(s, j)
  {
    var p :| 0 <= p <= |s| - |k| && OccursAt(s, k, p);
    var q :| 0 <= q <= |k| - |j| && OccursAt(k, j, q);
    SliceOfSlice(s, p, p + |k|, q, q + |j|);
    assert OccursAt(s, j, p + q);
  }

  /** An occurrence inside a slice is an occurrence in the whole string. */
  lemma IncludesInSlice(s: string, k: string, a: nat, b: nat)
    requires a <= b <= |s| && Includes(s[a..b], k)
    ensures Includes(s, k)
  {
    var p :| 0 <= p <= (b - a) - |k| && OccursAt(s[a..b], k, p);
    SliceOfSlice(s, a, b, p, p + |k|);
    IncludesAt(s, k, a + p);
  }

  /** A keyword holding a character that `s` lacks does not occur in `s`. */
  lemma NotIncludesChar(s: string, k: string, j: nat)
    requires j < |k|
    requires forall p | 0 <= p < |s| :: s[p] != k[j]
    ensures !Includes(s, k)
  {
    forall p | 0 <= p <= |s| - |k| ensures !OccursAt(s, k, p) {
      assert s[p..p + |k|][j] == s[p + j];
    }
  }

  /** A keyword holding two adjacent characters that never stand side by side in `s`
      does not occur in `s`. */
  lemma NotIncludesPair(s: string, k: string, j: nat)
    requires j + 1 < |k|
    requires forall p | 0 <= p < |s| - 1 :: !(s[p] == k[j] && s[p + 1] == k[j + 1])
    ensures !Includes(s, k)
  {
    forall p | 0 <= p <= |s| - |k| ensures !OccursAt(s, k, p) {
      assert s[p..p + |k|][j] == s[p + j];
      assert s[p..p + |k|][j + 1] == s[p + j + 1];
    }
  }

  /** Likewise for three adjacent characters. */
  lemma NotIncludesTriple(s: string, k: string, j: nat)
    requires j + 2 < |k|
    requires forall p | 0 <= p < |s| - 2 :: !(s[p] == k[j] && s[p + 1] == k[j + 1] && s[p + 2] == k[j + 2])
    ensures !Includes(s, k)
  {
    forall p | 0 <= p <= |s| - |k| ensures !OccursAt(s, k, p) {
      assert s[p..p + |k|][j] == s[p + j];
      assert s[p..p + |k|][j + 1] == s[p + j + 1];
      assert s[p..p + |k|][j + 2] == s[p + j + 2];
    }
  }

  /** The characters `String.prototype.trim` removes: the ECMAScript WhiteSpace
      and LineTerminator code points (section 12.2 and 12.3 of ECMA-262). */
  predicate IsWhiteSpace(c: char)
  {
    || c == '\t' || c == '\U{000B}' || c == '\U{000C}' || c == ' '
    || c == '\U{00A0}' || c == '\U{FEFF}' || c == '\U{1680}'
    || ('\U{2000}' <= c <= '\U{200A}')
    || c == '\U{202F}' || c == '\U{205F}' || c == '\U{3000}'
    || c == '\n' || c == '\r' || c == '\U{2028}' || c == '\U{2029}'
  }

  /** Lower-casing never turns white space into a letter, nor a letter into white space. */
  lemma LowerCharKeepsWhiteSpace(c: char)
    ensures IsWhiteSpace(LowerChar(c)) == IsWhiteSpace(c)
  {
  }

  /** The number of white-space characters at the start of `s`. */
  function LeadingWhiteSpace(s: string): (n: nat)
    ensures n <= |s|
    ensures forall i | 0 <= i < n :: IsWhiteSpace(s[i])
    ensures n < |s| ==> !IsWhiteSpace(s[n])
  {
    if s != [] && IsWhiteSpace(s[0]) then 1 + LeadingWhiteSpace(s[1..]) else 0
  }

  /** The number of white-space characters at the end of `s`. */
  function TrailingWhiteSpace(s: string): (n: nat)
    ensures n <= |s|
    ensures forall i | |s| - n <= i < |s| :: IsWhiteSpace(s[i])
    ensures n < |s| ==> !IsWhiteSpace(s[|s| - 1 - n])
  {
    if s != [] && IsWhiteSpace(s[|s| - 1]) then 1 + TrailingWhiteSpace(s[..|s| - 1]) else 0
  }

  /** `s.trim()`: `s` without its leading and trailing white space. */
  function Trim(s: string): string
  {
    var t := s[LeadingWhiteSpace(s)..];
    t[..|t| - TrailingWhiteSpace(t)]
  }

  /** `Trim(s)` is the slice `s[a..b]` with only white space outside it and no white
      space at either of its ends. */
  lemma TrimBounds(s: string) returns (a: nat, b: nat)
    ensures a <= b <= |s| && Trim(s) == s[a..b]
    ensures forall i | 0 <= i < a :: IsWhiteSpace(s[i])
    ensures forall i | b <= i < |s| :: IsWhiteSpace(s[i])
    ensures a < b ==> !IsWhiteSpace(s[a]) && !IsWhiteSpace(s[b - 1])
  {
    a := LeadingWhiteSpace(s);
    var t := s[a..];
    b := a + (|t| - TrailingWhiteSpace(t));
    assert forall i | b <= i < |s| :: s[i] == t[i - a];
  }

  /** A string trims to nothing exactly when it is all white space. */
  lemma TrimEmptyIff(s: string)
    ensures Trim(s) == [] <==> forall i | 0 <= i < |s| :: IsWhiteSpace(s[i])
  {
    var a, b := TrimBounds(s);
  }

  lemma TrimIdempotent(s: string)
    ensures Trim(Trim(s)) == Trim(s)
  {
    var a, b := TrimBounds(s);
    var t := Trim(s);
    assert t != [] ==> t[0] == s[a] && t[|t| - 1] == s[b - 1];
    assert LeadingWhiteSpace(t) == 0;
    assert TrailingWhiteSpace(t) == 0;
  }
}
