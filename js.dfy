/**
 * The few JavaScript language rules the client's logic leans on:
 * truthiness of strings, numbers and optional values, and the white space
 * that `String.prototype.trim` strips (section 22.1.3.32 of ECMA-262,
 * with the WhiteSpace and LineTerminator productions of section 12).
 */
module Js {
  import opened Wrappers

  /** A string is truthy exactly when it is not empty. */
  predicate TruthyString(s: string) {
    s != ""
  }

  /** `undefined`/`null` are falsy; a present string is truthy when non-empty. */
  predicate TruthyText(v: Option<string>) {
    v.Some? && TruthyString(v.value)
  }

  /** `undefined`/`null` and `false` are falsy. */
  predicate TruthyBool(v: Option<bool>) {
    v.Some? && v.value
  }

  /** `undefined`/`null` and `0` are falsy (NaN is outside the model). */
  predicate TruthyNumber(v: Option<int>) {
    v.Some? && v.value != 0
  }

  /** `a || b` on strings. */
  function TextOr(a: Option<string>, b: string): (r: string)
    ensures TruthyText(a) ==> r == a.value
    ensures !TruthyText(a) ==> r == b
  {
    if TruthyText(a) then a.value else b
  }

  /** The code points `trim` removes: WhiteSpace and LineTerminator. */
  predicate IsWhiteSpace(c: char) {
    || c == '\t' || c == '\n' || c == '\U{000B}' || c == '\U{000C}' || c == '\r'
    || c == ' ' || c == '\U{00A0}' || c == '\U{1680}'
    || ('\U{2000}' <= c <= '\U{200A}')
    || c == '\U{2028}' || c == '\U{2029}' || c == '\U{202F}' || c == '\U{205F}'
    || c == '\U{3000}' || c == '\U{FEFF}'
  }

  predicate AllWhiteSpace(s: string) {
    forall i :: 0 <= i < |s| ==> IsWhiteSpace(s[i])
  }

  /** Leading white space removed. */
  function TrimStart(s: string): (r: string)
    ensures |r| <= |s|
    ensures r == s[|s| - |r|..]
    ensures r == "" || !IsWhiteSpace(r[0])
    ensures AllWhiteSpace(s[..|s| - |r|])
  {
    if s == [] || !IsWhiteSpace(s[0]) then s
    else
      var r := TrimStart(s[1..]);
      assert s[1..][..|s[1..]| - |r|] == s[1..|s| - |r|];
      r
  }

  /** Trailing white space removed. */
  function TrimEnd(s: string): (r: string)
    ensures |r| <= |s|
    ensures r == s[..|r|]
    ensures r == "" || !IsWhiteSpace(r[|r| - 1])
    ensures AllWhiteSpace(s[|r|..])
  {
    if s == [] || !IsWhiteSpace(s[|s| - 1]) then s
    else
      var r := TrimEnd(s[..|s| - 1]);
      assert s[..|s| - 1][|r|..] == s[|r|..|s| - 1];
      r
  }

  /** `s.trim()`. */
  function Trim(s: string): string {
    TrimEnd(TrimStart(s))
  }

  /** `!s.trim()` holds exactly for the strings made only of white space. */
  lemma TrimEmptyIffAllWhiteSpace(s: string)
    ensures Trim(s) == "" <==> AllWhiteSpace(s)
  {
    var t := TrimStart(s);
    if !AllWhiteSpace(s) {
      var i :| 0 <= i < |s| && !IsWhiteSpace(s[i]);
      assert t[i - (|s| - |t|)] == s[i];
    }
  }

  /** The trimmed string keeps the order of the characters it keeps. */
  lemma TrimIsInfix(s: string)
    ensures exists a, b :: 0 <= a <= b <= |s| && Trim(s) == s[a..b]
  {
    var t := TrimStart(s);
    var e := TrimEnd(t);
    var a := |s| - |t|;
    assert e == t[..|e|] == s[a..a + |e|];
  }

  /** `Array.prototype.reverse` as a value: the last element first. */
  function Reverse<T>(s: seq<T>): (r: seq<T>)
    ensures |r| == |s|
    ensures forall i :: 0 <= i < |s| ==> r[i] == s[|s| - 1 - i]
  {
    if s == [] then [] else [s[|s| - 1]] + Reverse(s[..|s| - 1])
  }
}
