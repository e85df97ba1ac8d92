/** The JavaScript string operations the core relies on: `trim`,
    `toUpperCase`, `toLowerCase`, `includes`, `startsWith` and `endsWith`.
    Case mapping covers the ASCII letters only. */
module Text {

  /** The characters `String.prototype.trim` strips: the ASCII white space,
      the byte-order mark, the line and paragraph separators, and the space
      separators of Unicode (no-break space, Ogham space mark, the en quad to
      hair space block, narrow no-break space, medium mathematical space and
      ideographic space). */
  predicate IsWhitespace(c: char) {
    c == ' ' || c == '\t' || c == '\n' || c == '\r' || c == '\U{000B}' || c == '\U{000C}'
    || c == '\U{FEFF}' || c == '\U{2028}' || c == '\U{2029}'
    || c == '\U{00A0}' || c == '\U{1680}' || ('\U{2000}' <= c <= '\U{200A}')
    || c == '\U{202F}' || c == '\U{205F}' || c == '\U{3000}'
  }

  /** Neither the first nor the last character is white space. */
  predicate IsTrimmed(s: string) {
    s == [] || (!IsWhitespace(s[0]) && !IsWhitespace(s[|s| - 1]))
  }

  function TrimStart(s: string): (r: string)
    ensures |r| <= |s| && r == s[|s| - |r|..]
    ensures r == [] || !IsWhitespace(r[0])
    ensures forall i :: 0 <= i < |s| - |r| ==> IsWhitespace(s[i])
  {
    if s == [] || !IsWhitespace(s[0]) then s else TrimStart(s[1..])
  }

  function TrimEnd(s: string): (r: string)
    ensures |r| <= |s| && r == s[..|r|]
    ensures r == [] || !IsWhitespace(r[|r| - 1])
    ensures forall i :: |r| <= i < |s| ==> IsWhitespace(s[i])
  {
    if s == [] || !IsWhitespace(s[|s| - 1]) then s else TrimEnd(s[..|s| - 1])
  }

  /** `s.trim()`: what is left of `s` once the white space at both ends is
      removed. */
  function Trim(s: string): (r: string)
    ensures IsTrimmed(r)
    ensures exists a: nat :: OccursAt(s, r, a) && TrimmedAround(s, a, a + |r|)
  {
    var t := TrimStart(s);
    var r := TrimEnd(t);
    var a := |s| - |t|;
    assert OccursAt(s, r, a);
    assert r != [] ==> r[0] == t[0];
    assert TrimmedAround(s, a, a + |r|);
    r
  }

  /** Every character of `s` outside `[a, b)` is white space. */
  ghost predicate TrimmedAround(s: string, a: nat, b: nat) {
    (forall i :: 0 <= i < a && i < |s| ==> IsWhitespace(s[i]))
    && (forall i :: b <= i < |s| ==> IsWhitespace(s[i]))
  }

  lemma {:induction false} TrimStartOfTrimmed(s: string)
    requires s == [] || !IsWhitespace(s[0])
    ensures TrimStart(s) == s
  {
  }

  lemma {:induction false} TrimEndOfTrimmed(s: string)
    requires s == [] || !IsWhitespace(s[|s| - 1])
    ensures TrimEnd(s) == s
  {
  }

  /** Trimming a string that has no white space at either end changes nothing. */
  lemma TrimOfTrimmed(s: string)
    requires IsTrimmed(s)
    ensures Trim(s) == s
  {
    TrimStartOfTrimmed(s);
    TrimEndOfTrimmed(s);
  }

  function UpperChar(c: char): char {
    if 'a' <= c <= 'z' then (c as int - 'a' as int + 'A' as int) as char else c
  }

  function LowerChar(c: char): char {
    if 'A' <= c <= 'Z' then (c as int - 'A' as int + 'a' as int) as char else c
  }

  /** `s.toUpperCase()` on ASCII letters. */
  function ToUpper(s: string): (r: string)
    ensures |r| == |s|
    ensures forall i :: 0 <= i < |s| ==> r[i] == UpperChar(s[i])
  {
    seq(|s|, i requires 0 <= i < |s| => UpperChar(s[i]))
  }

  /** JavaScript's `s.length`: the number of UTF-16 code units, two for a
      character outside the Basic Multilingual Plane. */
  function Utf16Length(s: string): (n: nat)
    ensures |s| <= n <= 2 * |s|
    ensures (forall i :: 0 <= i < |s| ==> s[i] <= '\U{FFFF}') ==> n == |s|
  {
    if s == [] then 0
    else (if s[0] <= '\U{FFFF}' then 1 else 2) + Utf16Length(s[1..])
  }

  /** `s.toLowerCase()` on ASCII letters. */
  function ToLower(s: string): (r: string)
    ensures |r| == |s|
    ensures forall i :: 0 <= i < |s| ==> r[i] == LowerChar(s[i])
  {
    seq(|s|, i requires 0 <= i < |s| => LowerChar(s[i]))
  }

  lemma UpperKeepsWhitespace(c: char)
    ensures IsWhitespace(UpperChar(c)) <==> IsWhitespace(c)
  {
  }

  /** Upper-casing is idempotent and does not move white space, so it keeps a
      trimmed string trimmed. */
  lemma UpperOfUpper(s: string)
    ensures ToUpper(ToUpper(s)) == ToUpper(s)
    ensures IsTrimmed(s) ==> IsTrimmed(ToUpper(s))
  {
    if s != [] {
      UpperKeepsWhitespace(s[0]);
      UpperKeepsWhitespace(s[|s| - 1]);
    }
  }

  lemma UpperOfConcat(s: string, t: string)
    ensures ToUpper(s + t) == ToUpper(s) + ToUpper(t)
  {
  }

  lemma LowerOfLower(s: string)
    ensures ToLower(ToLower(s)) == ToLower(s)
  {
  }

  /** `s.startsWith(p)`. */
  predicate StartsWith(s: string, p: string) {
    |p| <= |s| && s[..|p|] == p
  }

  /** `s.endsWith(p)`. */
  predicate EndsWith(s: string, p: string) {
    |p| <= |s| && s[|s| - |p|..] == p
  }

  /** `p` occurs in `s` starting at position `i`. */
  predicate OccursAt(s: string, p: string, i: nat) {
    i + |p| <= |s| && s[i..i + |p|] == p
  }

  /** `s.includes(p)`: `p` occurs in `s` at some position. */
  predicate Contains(s: string, p: string) {
    exists i: nat :: i <= |s| && OccursAt(s, p, i)
  }
}
