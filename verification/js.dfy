/** The few pieces of JavaScript semantics that the summarizer client relies on:
    `undefined`, values that are thrown, settled promises, the truthiness of
    strings under `||`, and `String.prototype.trim`. */
module Js {

  /** A value that may be `undefined`. */
  datatype Option<T> = None | Some(value: T)

  /** A value caught by a `catch` clause: either an `Error` instance, which
      carries a message, or any other value (for which `instanceof Error` is false). */
  datatype Thrown = ErrorInstance(message: string) | NonErrorValue

  /** The outcome of an awaited promise: resolved with a value or rejected with a reason. */
  datatype Settled<T, E> = Resolved(value: T) | Rejected(reason: E)

  /** A possibly undefined string is truthy when it is defined and not empty. */
  predicate Truthy(s: Option<string>) {
    s.Some? && s.value != ""
  }

  /** `a || b` on possibly undefined strings: the first operand when it is truthy, else the second. */
  function Or(a: Option<string>, b: Option<string>): (r: Option<string>)
    ensures r == a || r == b
    ensures Truthy(r) <==> Truthy(a) || Truthy(b)
    ensures Truthy(a) ==> r == a
  {
    if Truthy(a) then a else b
  }

  /** `err instanceof Error ? err.message : fallback` */
  function MessageOr(err: Thrown, fallback: string): (m: string)
    ensures err.ErrorInstance? ==> m == err.message
    ensures err.NonErrorValue? ==> m == fallback
  {
    match err
    case ErrorInstance(msg) => msg
    case NonErrorValue => fallback
  }

  /** The characters `String.prototype.trim` removes: ECMAScript's WhiteSpace
      (tab, vertical tab, form feed, space, no-break space, the byte order mark and
      every other space separator of Unicode category Zs) and LineTerminator
      (line feed, carriage return, line separator, paragraph separator). */
  predicate IsWhitespace(c: char) {
    c == '\t' || c == '\U{000B}' || c == '\U{000C}' || c == ' ' || c == '\U{00A0}' || c == '\U{FEFF}'
    || c == '\n' || c == '\r' || c == '\U{2028}' || c == '\U{2029}'
    || c == '\U{1680}' || ('\U{2000}' <= c <= '\U{200A}') || c == '\U{202F}' || c == '\U{205F}' || c == '\U{3000}'
  }

  /** Every character of `s` is whitespace (true of the empty string). */
  predicate AllWhitespace(s: string) {
    forall i :: 0 <= i < |s| ==> IsWhitespace(s[i])
  }

  /** `s` with its leading whitespace removed: a suffix of `s` that starts with
      a non-whitespace character (or is empty), everything cut off being whitespace. */
  function TrimStart(s: string): (r: string)
    ensures |r| <= |s| && r == s[|s| - |r|..]
    ensures r == [] || !IsWhitespace(r[0])
    ensures AllWhitespace(s[..|s| - |r|])
  {
    if s != [] && IsWhitespace(s[0]) then TrimStart(s[1..]) else s
  }

  /** `s` with its trailing whitespace removed: a prefix of `s` that ends with
      a non-whitespace character (or is empty), everything cut off being whitespace. */
  function TrimEnd(s: string): (r: string)
    ensures |r| <= |s| && r == s[..|r|]
    ensures r == [] || !IsWhitespace(r[|r| - 1])
    ensures AllWhitespace(s[|r|..])
  {
    if s != [] && IsWhitespace(s[|s| - 1]) then TrimEnd(s[..|s| - 1]) else s
  }

  /** `s.trim()`: no longer than `s`, with no whitespace at either end, and
      empty exactly when `s` holds nothing but whitespace. */
  function Trim(s: string): (r: string)
    ensures |r| <= |s|
    ensures r != [] ==> !IsWhitespace(r[0]) && !IsWhitespace(r[|r| - 1])
    ensures r == [] <==> AllWhitespace(s)
  {
    var u := TrimStart(s);
    assert s == s[..|s| - |u|] + u;
    AllWhitespaceJoin(s[..|s| - |u|], u);
    TrimEnd(u)
  }

  /** Putting whitespace in front of a string does not change whether it is all whitespace. */
  lemma AllWhitespaceJoin(a: string, b: string)
    requires AllWhitespace(a)
    ensures AllWhitespace(a + b) <==> AllWhitespace(b)
  {
    if AllWhitespace(b) {
      forall i | 0 <= i < |a + b| ensures IsWhitespace((a + b)[i]) {
        if i >= |a| { assert (a + b)[i] == b[i - |a|]; }
      }
    }
    if AllWhitespace(a + b) {
      forall i | 0 <= i < |b| ensures IsWhitespace(b[i]) {
        assert b[i] == (a + b)[|a| + i];
      }
    }
  }
}
