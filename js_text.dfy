/** The pieces of JavaScript string semantics that the validators and
    smart constructors rely on. A string is a sequence of Unicode scalar
    values; where the program observes UTF-16 code units (`length`) the
    difference is written out. */
module JsText {

  /** The characters matched by the regular-expression class `\s`: the
      ECMAScript WhiteSpace and LineTerminator code points. `\S` is its
      complement. */
  predicate IsWhitespace(c: char) {
    c == '\t' || c == '\n' || c == '\U{000B}' || c == '\U{000C}' || c == '\r'
    || c == ' ' || c == '\U{00A0}' || c == '\U{1680}'
    || ('\U{2000}' <= c <= '\U{200A}')
    || c == '\U{2028}' || c == '\U{2029}' || c == '\U{202F}' || c == '\U{205F}'
    || c == '\U{3000}' || c == '\U{FEFF}'
  }

  /** A code point outside the Basic Multilingual Plane occupies two
      UTF-16 code units (a surrogate pair). */
  predicate IsAstral(c: char) {
    c >= '\U{10000}'
  }

  /** `s.length` in JavaScript: the number of UTF-16 code units. */
  function Utf16Length(s: string): (n: nat)
    ensures |s| <= n <= 2 * |s|
    ensures n == |s| <==> forall i :: 0 <= i < |s| ==> !IsAstral(s[i])
    ensures n == 0 <==> s == []
  {
    if s == [] then 0
    else (if IsAstral(s[0]) then 2 else 1) + Utf16Length(s[1..])
  }

  /** `s.startsWith(prefix)`, compared character by character. */
  function StartsWith(s: string, prefix: string): (b: bool)
    ensures b <==> |prefix| <= |s| && s[..|prefix|] == prefix
  {
    if prefix == [] then true
    else if s == [] then false
    else s[0] == prefix[0] && StartsWith(s[1..], prefix[1..])
  }

}
