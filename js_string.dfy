/**
 * The few pieces of JavaScript string semantics the screens rely on:
 * `String.prototype.trim`, the line terminators excluded by a regular
 * expression's `.`, and the truthiness of a stored string.
 */
module JsString {
  import opened Wrappers

  /** ECMAScript LineTerminator: LF, CR, LINE SEPARATOR, PARAGRAPH SEPARATOR. */
  predicate IsLineTerminator(c: char) {
    c == '\n' || c == '\r' || c == '\U{2028}' || c == '\U{2029}'
  }

  /**
   * ECMAScript WhiteSpace: TAB, VT, FF, ZWNBSP and the space separators
   * (category Zs) of Unicode 15.
   */
  predicate IsWhiteSpace(c: char) {
    c == '\t' || c == '\U{000B}' || c == '\U{000C}' || c == '\U{FEFF}'
    || c == ' ' || c == '\U{00A0}' || c == '\U{1680}'
    || ('\U{2000}' <= c <= '\U{200A}')
    || c == '\U{202F}' || c == '\U{205F}' || c == '\U{3000}'
  }

  /** The characters `trim()` strips from both ends. */
  predicate IsTrimmable(c: char) {
    IsWhiteSpace(c) || IsLineTerminator(c)
  }

  predicate AllTrimmable(s: string) {
    forall i :: 0 <= i < |s| ==> IsTrimmable(s[i])
  }

  /** `trimStart()`: the longest suffix that does not start with a trimmable character. */
  function TrimStart(s: string): (r: string)
    ensures |r| <= |s| && r == s[|s| - |r|..]
    ensures forall i :: 0 <= i < |s| - |r| ==> IsTrimmable(s[i])
    ensures r == [] || !IsTrimmable(r[0])
  {
    if s != [] && IsTrimmable(s[0]) then TrimStart(s[1..]) else s
  }

  /** `trimEnd()`: the longest prefix that does not end with a trimmable character. */
  function TrimEnd(s: string): (r: string)
    ensures |r| <= |s| && r == s[..|r|]
    ensures forall i :: |r| <= i < |s| ==> IsTrimmable(s[i])
    ensures r == [] || !IsTrimmable(r[|r| - 1])
  {
    if s != [] && IsTrimmable(s[|s| - 1]) then TrimEnd(s[..|s| - 1]) else s
  }

  /** `trim()`: strips trimmable characters from both ends. */
  function Trim(s: string): (r: string)
    ensures |r| <= |s|
    ensures r != [] ==> !IsTrimmable(r[0]) && !IsTrimmable(r[|r| - 1])
  {
    TrimEnd(TrimStart(s))
  }

  /** How many characters `trimStart()` drops. */
  function LeadingLength(s: string): (k: nat)
    ensures k <= |s|
  {
    |s| - |TrimStart(s)|
  }

  /** A prefix of a suffix is an infix. */
  lemma PrefixOfSuffix(s: string, t: string, r: string)
    requires |t| <= |s| && t == s[|s| - |t|..]
    requires |r| <= |t| && r == t[..|r|]
    ensures r == s[|s| - |t|..|s| - |t| + |r|]
  {
  }

  /**
   * What `trim()` returns: an infix of `s` that starts after the characters
   * `trimStart()` drops, with nothing trimmable left at either end.
   */
  lemma TrimIsInfix(s: string)
    ensures LeadingLength(s) + |Trim(s)| <= |s|
    ensures Trim(s) == s[LeadingLength(s)..LeadingLength(s) + |Trim(s)|]
    ensures Trim(s) != [] ==> !IsTrimmable(Trim(s)[0]) && !IsTrimmable(Trim(s)[|Trim(s)| - 1])
  {
    PrefixOfSuffix(s, TrimStart(s), Trim(s));
  }

  /** What follows a prefix of a suffix in the suffix also follows it in the whole. */
  lemma TrimmableAfterInfix(s: string, t: string, r: string)
    requires |t| <= |s| && t == s[|s| - |t|..] && |r| <= |t|
    requires forall i :: |r| <= i < |t| ==> IsTrimmable(t[i])
    ensures forall i :: |s| - |t| + |r| <= i < |s| ==> IsTrimmable(s[i])
  {
    var k := |s| - |t|;
    forall i | k + |r| <= i < |s| ensures IsTrimmable(s[i]) {
      assert s[i] == t[i - k];
    }
  }

  /** Every character `trim()` drops, before or after the infix, is trimmable. */
  lemma TrimDropsOnlyTrimmable(s: string)
    ensures LeadingLength(s) + |Trim(s)| <= |s|
    ensures forall i :: 0 <= i < LeadingLength(s) ==> IsTrimmable(s[i])
    ensures forall i :: LeadingLength(s) + |Trim(s)| <= i < |s| ==> IsTrimmable(s[i])
  {
    TrimmableAfterInfix(s, TrimStart(s), Trim(s));
  }

  /** `s.trim()` is falsy (the empty string) exactly when `s` is all white space. */
  predicate IsBlank(s: string) {
    Trim(s) == ""
  }

  lemma BlankIffAllTrimmable(s: string)
    ensures IsBlank(s) <==> AllTrimmable(s)
  {
  }

  /** A value read from storage is truthy when it is present and not the empty string. */
  predicate Truthy(stored: Option<string>): (b: bool)
    ensures b ==> stored.Some? && |stored.value| > 0
    ensures stored.Some? && |stored.value| > 0 ==> b
  {
    stored.Some? && stored.value != ""
  }

  /** A name that passes the join guard (`trim()` non-empty) also passes the mount guards. */
  lemma NonBlankIsTruthy(s: string)
    ensures !IsBlank(s) ==> Truthy(Some(s))
  {
  }

  /** The two guards differ: a name of white space alone is truthy but blank. */
  lemma BlankButTruthy()
    ensures Truthy(Some(" ")) && IsBlank(" ")
  {
    assert TrimStart(" ") == TrimStart(" "[1..]);
  }
}
