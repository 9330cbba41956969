// String helpers that mirror the few Python string operations the session
// logic relies on: `str.isspace`, `str.strip()`, the substring test `sub in s`
// and `str.upper()` on the role names.

module Wrappers {

  datatype Option<+T> = None | Some(value: T)
}

module Text {

  /** Python's `str.isspace` for one character: the characters whose
      bidirectional class is WS, B or S, or whose category is Zs. */
  predicate IsSpace(c: char) {
    ('\t' <= c <= '\r') || ('\U{1C}' <= c <= ' ') || c == '\U{85}' || c == '\U{A0}'
    || c == '\U{1680}' || ('\U{2000}' <= c <= '\U{200A}') || c == '\U{2028}' || c == '\U{2029}'
    || c == '\U{202F}' || c == '\U{205F}' || c == '\U{3000}'
  }

  /** Every character of `s` is white space (vacuously true of ""). */
  predicate IsBlank(s: string) {
    forall i :: 0 <= i < |s| ==> IsSpace(s[i])
  }

  /** `s.lstrip()`: drops the leading white space, and nothing else. */
  function TrimLeft(s: string): (r: string)
    ensures |r| <= |s| && r == s[|s| - |r|..]
    ensures IsBlank(s[..|s| - |r|])
    ensures r == [] || !IsSpace(r[0])
  {
    if s != [] && IsSpace(s[0]) then
      var t := s[1..];
      var r := TrimLeft(t);
      assert s[..|s| - |r|] == [s[0]] + t[..|t| - |r|];
      assert r == t[|t| - |r|..] == s[|s| - |r|..];
      r
    else s
  }

  /** `s.rstrip()`: drops the trailing white space, and nothing else. */
  function TrimRight(s: string): (r: string)
    ensures |r| <= |s| && r == s[..|r|]
    ensures IsBlank(s[|r|..])
    ensures r == [] || !IsSpace(r[|r| - 1])
  {
    if s != [] && IsSpace(s[|s| - 1]) then
      var t := s[..|s| - 1];
      var r := TrimRight(t);
      assert s[|r|..] == t[|r|..] + [s[|s| - 1]];
      assert r == t[..|r|] == s[..|r|];
      r
    else s
  }

  /** `s.strip()` with no argument. */
  function Strip(s: string): string {
    TrimRight(TrimLeft(s))
  }

  /** `s.strip()` is falsy exactly when `s` holds no character other than
      white space; this is the test the context and the send form apply. */
  lemma StripEmptyIffBlank(s: string)
    ensures Strip(s) == [] <==> IsBlank(s)
  {
    var l := TrimLeft(s);
    var k := |s| - |l|;
    if l == [] {
      assert s == s[..k];
    } else {
      assert !IsSpace(s[k]);
      assert TrimRight(l) != [];
    }
  }

  /** Regrouping a concatenation, stated on opaque parts so that callers need
      not unfold what the parts are made of. */
  lemma ConcatAssoc(a: string, b: string, c: string)
    ensures a + (b + c) == a + b + c
  {
  }

  /** The truth value of `s.strip()`, as an `if` tests it. */
  method HasText(s: string) returns (b: bool)
    ensures b <==> !IsBlank(s)
  {
    StripEmptyIffBlank(s);
    b := Strip(s) != "";
  }

  /** `sub` occurs in `s` starting at index `i`. */
  predicate OccursAt(s: string, sub: string, i: int) {
    0 <= i && i + |sub| <= |s| && s[i..i + |sub|] == sub
  }

  /** Python's `sub in s` on strings: `sub` occurs in `s` as a contiguous
      substring (the empty string occurs everywhere). */
  predicate Contains(s: string, sub: string) {
    exists i | 0 <= i <= |s| - |sub| :: OccursAt(s, sub, i)
  }

  function UpperChar(c: char): char {
    if 'a' <= c <= 'z' then (c as int - 'a' as int + 'A' as int) as char else c
  }

  /** `s.upper()` on ASCII text (the role names "user" and "assistant"). */
  function Upper(s: string): (r: string)
    ensures |r| == |s|
    ensures forall i :: 0 <= i < |s| ==> r[i] == UpperChar(s[i])
  {
    if s == [] then [] else [UpperChar(s[0])] + Upper(s[1..])
  }
}
