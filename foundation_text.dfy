/** The two pieces of Foundation's string API that the room-id field relies on:
    `trimmingCharacters(in: .whitespacesAndNewlines)` and `lowercased()`.
    Characters are Unicode scalar values; the whitespace set is the one Foundation
    documents for `whitespacesAndNewlines`, and case mapping covers ASCII letters only. */
module FoundationText {

  /** Membership in `CharacterSet.whitespacesAndNewlines`: the Unicode space,
      line and paragraph separators (general category Z), U+0009 to U+000D and U+0085. */
  predicate IsWhitespaceOrNewline(c: char) {
    ('\t' <= c <= '\r') || c == ' ' || c == '\U{85}' || c == '\U{A0}' || c == '\U{1680}'
    || ('\U{2000}' <= c <= '\U{200A}') || c == '\U{2028}' || c == '\U{2029}'
    || c == '\U{202F}' || c == '\U{205F}' || c == '\U{3000}'
  }

  predicate IsUpper(c: char) {
    'A' <= c <= 'Z'
  }

  /** Lower-case mapping of one character (ASCII letters; every other character maps to itself). */
  function ToLower(c: char): (d: char)
    ensures !IsUpper(d)
    ensures IsUpper(c) ==> d as int == c as int + 32
    ensures !IsUpper(c) ==> d == c
    ensures IsWhitespaceOrNewline(d) == IsWhitespaceOrNewline(c)
  {
    if IsUpper(c) then (c as int - 'A' as int + 'a' as int) as char else c
  }

  /** `s.lowercased()`, character by character: the length is kept, every capital
      becomes its lower-case letter, every other character stays in place, so no
      upper-case letter is left and no character moves into or out of the whitespace set. */
  function Lowercased(s: string): (r: string)
    ensures |r| == |s|
    ensures forall i :: 0 <= i < |s| && !IsUpper(s[i]) ==> r[i] == s[i]
    ensures forall i :: 0 <= i < |s| && IsUpper(s[i]) ==> r[i] as int == s[i] as int + 32
    ensures IsLowercase(r)
    ensures HasNoEdgeWhitespace(s) ==> HasNoEdgeWhitespace(r)
  {
    seq(|s|, i requires 0 <= i < |s| => ToLower(s[i]))
  }

  predicate AllWhitespace(s: string) {
    forall i :: 0 <= i < |s| ==> IsWhitespaceOrNewline(s[i])
  }

  predicate IsLowercase(s: string) {
    forall i :: 0 <= i < |s| ==> !IsUpper(s[i])
  }

  /** Neither the first nor the last character is whitespace or a newline. */
  predicate HasNoEdgeWhitespace(s: string) {
    s == [] || (!IsWhitespaceOrNewline(s[0]) && !IsWhitespaceOrNewline(s[|s| - 1]))
  }

  /** The length of the whitespace run at the front of `s`: every character before it
      is whitespace, and the character at it, if any, is not. */
  function LeadingWhitespaceCount(s: string): (n: nat)
    ensures n <= |s|
    ensures forall i :: 0 <= i < n ==> IsWhitespaceOrNewline(s[i])
    ensures n < |s| ==> !IsWhitespaceOrNewline(s[n])
    decreases |s|
  {
    if s != [] && IsWhitespaceOrNewline(s[0]) then 1 + LeadingWhitespaceCount(s[1..]) else 0
  }

  /** The length of the whitespace run at the back of `s`: every one of the last `n`
      characters is whitespace, and the one before them, if any, is not. */
  function TrailingWhitespaceCount(s: string): (n: nat)
    ensures n <= |s|
    ensures forall i :: |s| - n <= i < |s| ==> IsWhitespaceOrNewline(s[i])
    ensures n < |s| ==> !IsWhitespaceOrNewline(s[|s| - 1 - n])
    decreases |s|
  {
    if s != [] && IsWhitespaceOrNewline(s[|s| - 1]) then 1 + TrailingWhitespaceCount(s[..|s| - 1]) else 0
  }

  /** `s.trimmingCharacters(in: .whitespacesAndNewlines)`: a contiguous piece of `s`
      with no whitespace at either edge, and everything cut off on either side of it
      is whitespace. */
  function Trimmed(s: string): (r: string)
    ensures |r| <= |s|
    ensures HasNoEdgeWhitespace(r)
    ensures var k := LeadingWhitespaceCount(s);
            k + |r| <= |s| && r == s[k..k + |r|]
            && (forall i :: 0 <= i < k ==> IsWhitespaceOrNewline(s[i]))
            && (forall i :: k + |r| <= i < |s| ==> IsWhitespaceOrNewline(s[i]))
  {
    var front := LeadingWhitespaceCount(s);
    if front == |s| then
      []
    else
      var back := TrailingWhitespaceCount(s);
      assert front < |s| - back;
      s[front..|s| - back]
  }

  /** The whitespace run at the front is the only one with its two properties. */
  lemma LeadingWhitespaceCountUnique(s: string, n: nat)
    requires n <= |s|
    requires forall i :: 0 <= i < n ==> IsWhitespaceOrNewline(s[i])
    requires n < |s| ==> !IsWhitespaceOrNewline(s[n])
    ensures LeadingWhitespaceCount(s) == n
  {
  }

  /** The whitespace run at the back is the only one with its two properties. */
  lemma TrailingWhitespaceCountUnique(s: string, n: nat)
    requires n <= |s|
    requires forall i :: |s| - n <= i < |s| ==> IsWhitespaceOrNewline(s[i])
    requires n < |s| ==> !IsWhitespaceOrNewline(s[|s| - 1 - n])
    ensures TrailingWhitespaceCount(s) == n
  {
  }

  /** Trimming removes exactly the whitespace padding around `m` and nothing of `m`
      itself, so interior whitespace survives. */
  lemma TrimmedOfPadded(p: string, m: string, q: string)
    requires AllWhitespace(p) && AllWhitespace(q) && HasNoEdgeWhitespace(m)
    ensures Trimmed(p + m + q) == m
  {
    var s := p + m + q;
    assert forall i :: 0 <= i < |p| ==> s[i] == p[i];
    assert forall i :: 0 <= i < |q| ==> s[|p| + |m| + i] == q[i];
    if m == [] {
      LeadingWhitespaceCountUnique(s, |s|);
    } else {
      assert s[|p|] == m[0];
      LeadingWhitespaceCountUnique(s, |p|);
      assert s[|s| - 1 - |q|] == m[|m| - 1];
      TrailingWhitespaceCountUnique(s, |q|);
      assert s[|p|..|s| - |q|] == m;
    }
  }

  /** Text already free of edge whitespace is left as it is by trimming. */
  lemma TrimmedOfTrimmed(s: string)
    requires HasNoEdgeWhitespace(s)
    ensures Trimmed(s) == s
  {
    assert [] + s + [] == s;
    TrimmedOfPadded([], s, []);
  }

  /** Lowercasing text that has no upper-case letter changes nothing. */
  lemma LowercasedOfLowercase(s: string)
    requires IsLowercase(s)
    ensures Lowercased(s) == s
  {
    assert forall i :: 0 <= i < |s| ==> Lowercased(s)[i] == s[i];
  }
}
