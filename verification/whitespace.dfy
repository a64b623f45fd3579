/**
 The blank-query test `!query.trim()` of the search handler.

 JavaScript's `String.prototype.trim` removes leading and trailing code points
 of the ECMAScript WhiteSpace and LineTerminator productions; the result is
 falsy exactly when it is the empty string.
 */
module Whitespace {

  /** The ECMAScript WhiteSpace code points (tab, vertical tab, form feed,
      byte-order mark and the Unicode space separators) and the LineTerminator
      code points (line feed, carriage return, line and paragraph separator). */
  predicate IsJsWhitespace(c: char) {
    || c == '\t' || c == '\U{000B}' || c == '\U{000C}' || c == '\U{FEFF}'
    || c == ' ' || c == '\U{00A0}' || c == '\U{1680}'
    || ('\U{2000}' <= c <= '\U{200A}')
    || c == '\U{202F}' || c == '\U{205F}' || c == '\U{3000}'
    || c == '\n' || c == '\r' || c == '\U{2028}' || c == '\U{2029}'
  }

  /** Every character of `s` is whitespace (vacuously true of ""). */
  predicate AllWhitespace(s: string) {
    forall i :: 0 <= i < |s| ==> IsJsWhitespace(s[i])
  }

  /** `s` with its leading whitespace removed: what is removed is all
      whitespace, and what is kept is a suffix that does not start with it. */
  function TrimStart(s: string): (r: string)
    ensures |r| <= |s| && r == s[|s| - |r|..]
    ensures forall i :: 0 <= i < |s| - |r| ==> IsJsWhitespace(s[i])
    ensures r == [] || !IsJsWhitespace(r[0])
    decreases |s|
  {
    if |s| > 0 && IsJsWhitespace(s[0]) then TrimStart(s[1..]) else s
  }

  /** `s` with its trailing whitespace removed: what is removed is all
      whitespace, and what is kept is a prefix that does not end with it. */
  function TrimEnd(s: string): (r: string)
    ensures |r| <= |s| && r == s[..|r|]
    ensures forall i :: |r| <= i < |s| ==> IsJsWhitespace(s[i])
    ensures r == [] || !IsJsWhitespace(r[|r| - 1])
    decreases |s|
  {
    if |s| > 0 && IsJsWhitespace(s[|s| - 1]) then TrimEnd(s[..|s| - 1]) else s
  }

  /** `String.prototype.trim`: empty exactly when the input is all whitespace,
      and otherwise neither starting nor ending with whitespace. */
  function Trim(s: string): (r: string)
    ensures r == [] <==> AllWhitespace(s)
    ensures r != [] ==> !IsJsWhitespace(r[0]) && !IsJsWhitespace(r[|r| - 1])
  {
    TrimBothEnds(s);
    TrimEnd(TrimStart(s))
  }

  /** Trimming both ends leaves nothing exactly when every character is
      whitespace, and a non-empty result keeps the non-whitespace first
      character that trimming the start exposed. */
  lemma TrimBothEnds(s: string)
    ensures TrimEnd(TrimStart(s)) == [] <==> AllWhitespace(s)
    ensures TrimEnd(TrimStart(s)) != [] ==> !IsJsWhitespace(TrimEnd(TrimStart(s))[0])
  {
  }

  /** The search handler's guard: the trimmed query is the empty string. */
  predicate IsBlank(query: string) {
    Trim(query) == []
  }
}
