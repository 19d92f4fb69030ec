/**
 * `String.prototype.trim` and the "empty after trimming" test that guards
 * every create and rename on the board page (`!title.trim()`).
 */
module Text {

  /**
   * The characters `trim` strips: the ECMAScript WhiteSpace code points
   * (tab, vertical tab, form feed, no-break space, byte order mark and the
   * Unicode space separators) and the LineTerminator code points.
   */
  predicate IsSpace(c: char)
  {
    || c == '\U{0009}' || c == '\U{000A}' || c == '\U{000B}' || c == '\U{000C}' || c == '\U{000D}'
    || c == '\U{0020}' || c == '\U{00A0}' || c == '\U{1680}'
    || ('\U{2000}' <= c <= '\U{200A}')
    || c == '\U{2028}' || c == '\U{2029}' || c == '\U{202F}' || c == '\U{205F}'
    || c == '\U{3000}' || c == '\U{FEFF}'
  }

  /** How many characters `trim` strips from the front. */
  function LeadingSpaces(s: string): (n: nat)
    ensures n <= |s|
    ensures forall i :: 0 <= i < n ==> IsSpace(s[i])
    ensures n < |s| ==> !IsSpace(s[n])
  {
    if s == [] || !IsSpace(s[0]) then 0 else 1 + LeadingSpaces(s[1..])
  }

  /** How many characters `trim` strips from the back. */
  function TrailingSpaces(s: string): (n: nat)
    ensures n <= |s|
    ensures forall i :: |s| - n <= i < |s| ==> IsSpace(s[i])
    ensures n < |s| ==> !IsSpace(s[|s| - 1 - n])
  {
    if s == [] || !IsSpace(s[|s| - 1]) then 0 else 1 + TrailingSpaces(s[..|s| - 1])
  }

  /**
   * `s.trim()`: what follows the leading whitespace of `s`, up to where
   * only whitespace remains; it neither starts nor ends with whitespace.
   */
  function Trim(s: string): (r: string)
    ensures LeadingSpaces(s) + |r| <= |s|
    ensures r == s[LeadingSpaces(s)..LeadingSpaces(s) + |r|]
    ensures forall i :: LeadingSpaces(s) + |r| <= i < |s| ==> IsSpace(s[i])
    ensures r != [] ==> !IsSpace(r[0]) && !IsSpace(r[|r| - 1])
  {
    var t := s[LeadingSpaces(s)..];
    t[..|t| - TrailingSpaces(t)]
  }

  /** The guard `!title.trim()`: the title is empty once trimmed. */
  predicate IsBlank(title: string)
  {
    Trim(title) == []
  }

  /** A title is blank exactly when every character of it is whitespace. */
  lemma BlankIffAllSpace(title: string)
    ensures IsBlank(title) <==> forall i :: 0 <= i < |title| ==> IsSpace(title[i])
  {
    var a, r := LeadingSpaces(title), Trim(title);
    if r != [] {
      assert title[a] == r[0];
    }
  }
}
