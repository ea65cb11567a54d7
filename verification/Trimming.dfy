/** Foundation's `trimmingCharacters(in: .whitespacesAndNewlines)` on a prompt. */
module Trimming {

  /** Membership in the whitespaces-and-newlines character set: the Unicode
      space separators (Zs), the line and paragraph separators (Zl, Zp),
      tab, the line breaks U+000A to U+000D, and NEXT LINE (U+0085). */
  predicate IsWhitespaceOrNewline(c: char)
  {
    c == '\t' || ('\n' <= c <= '\r') || c == ' ' || c == '\U{85}' ||
    c == '\U{A0}' || c == '\U{1680}' || ('\U{2000}' <= c <= '\U{200A}') ||
    c == '\U{2028}' || c == '\U{2029}' || c == '\U{202F}' || c == '\U{205F}' ||
    c == '\U{3000}'
  }

  predicate AllWhitespace(s: string)
  {
    forall k :: 0 <= k < |s| ==> IsWhitespaceOrNewline(s[k])
  }

  /** Drops the leading run of whitespace: the result is a suffix of `s`
      that does not start with whitespace, and all that was dropped is
      whitespace. */
  function DropLeading(s: string): (r: string)
    ensures |r| <= |s| && r == s[|s| - |r|..]
    ensures forall k :: 0 <= k < |s| - |r| ==> IsWhitespaceOrNewline(s[k])
    ensures r == [] || !IsWhitespaceOrNewline(r[0])
  {
    if s != [] && IsWhitespaceOrNewline(s[0]) then
      var r := DropLeading(s[1..]);
      assert forall k :: 1 <= k < |s| ==> s[k] == s[1..][k - 1];
      r
    else
      s
  }

  /** Drops the trailing run of whitespace: the result is a prefix of `s`
      that does not end with whitespace, and all that was dropped is
      whitespace. */
  function DropTrailing(s: string): (r: string)
    ensures |r| <= |s| && r == s[..|r|]
    ensures forall k :: |r| <= k < |s| ==> IsWhitespaceOrNewline(s[k])
    ensures r == [] || !IsWhitespaceOrNewline(r[|r| - 1])
  {
    if s != [] && IsWhitespaceOrNewline(s[|s| - 1]) then
      var r := DropTrailing(s[..|s| - 1]);
      assert forall k :: 0 <= k < |s| - 1 ==> s[k] == s[..|s| - 1][k];
      r
    else
      s
  }

  /** The prompt with whitespace and newlines removed from both ends. */
  function Trimmed(s: string): (r: string)
    ensures |r| <= |s|
    ensures r == [] || (!IsWhitespaceOrNewline(r[0]) && !IsWhitespaceOrNewline(r[|r| - 1]))
  {
    DropTrailing(DropLeading(s))
  }

  /** A prompt trims to nothing exactly when it consists of whitespace and
      newlines only. */
  lemma TrimmedEmptyIffAllWhitespace(s: string)
    ensures Trimmed(s) == [] <==> AllWhitespace(s)
  {
  }

  /** Trimming an already trimmed prompt changes nothing, so the prompt the
      view-model sends is exactly the trimmed one. */
  lemma TrimmedIsIdempotent(s: string)
    ensures Trimmed(Trimmed(s)) == Trimmed(s)
  {
    var t := Trimmed(s);
    assert DropLeading(t) == t;
    assert DropTrailing(t) == t;
  }
}
