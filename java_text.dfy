/**
 * `String.equalsIgnoreCase` as the image provider uses it to compare
 * activity (session) names. Case mapping is restricted to ASCII letters.
 */
module JavaText {
  import opened Optional

  function UpperAscii(c: char): char {
    if 'a' <= c <= 'z' then (c as int - 32) as char else c
  }

  function LowerAscii(c: char): char {
    if 'A' <= c <= 'Z' then (c as int + 32) as char else c
  }

  /** Two characters match when they are equal, equal once upper-cased,
      or equal once upper-cased and then lower-cased. */
  predicate CharsEqualIgnoreCase(a: char, b: char) {
    a == b
    || UpperAscii(a) == UpperAscii(b)
    || LowerAscii(UpperAscii(a)) == LowerAscii(UpperAscii(b))
  }

  /** `s.equalsIgnoreCase(other)`; a `null` argument never matches. */
  predicate EqualsIgnoreCase(s: string, other: Option<string>)
    ensures EqualsIgnoreCase(s, other) ==> other.Some? && |other.value| == |s|
    ensures other == Some(s) ==> EqualsIgnoreCase(s, other)
    ensures other == Some("") ==> (EqualsIgnoreCase(s, other) <==> s == "")
    ensures EqualsIgnoreCase(s, other) <==>
            other.Some? && |other.value| == |s|
            && (forall i :: 0 <= i < |s| ==> UpperAscii(s[i]) == UpperAscii(other.value[i]))
  {
    other.Some? && |s| == |other.value|
    && forall i :: 0 <= i < |s| ==> CharsEqualIgnoreCase(s[i], other.value[i])
  }

}
