/** Python's `str.lower()` restricted to ASCII letters, as the chat loop uses it
    to compare the user's replies with the keywords "quit" and "skip". */
module Text {

  /** The lower-case form of one character: A-Z map to a-z, every other character is kept. */
  function LowerChar(c: char): char
  {
    if 'A' <= c <= 'Z' then (c as int + 32) as char else c
  }

  /** The upper-case partner of a lower-case ASCII letter. */
  function UpperChar(c: char): char
  {
    if 'a' <= c <= 'z' then (c as int - 32) as char else c
  }

  /** `s.lower()`: the string with every ASCII capital replaced by its small letter. */
  function Lower(s: string): (r: string)
    ensures |r| == |s|
    ensures forall i :: 0 <= i < |s| ==> r[i] == LowerChar(s[i])
  {
    if s == [] then [] else [LowerChar(s[0])] + Lower(s[1..])
  }

  /** A keyword written in small ASCII letters only, such as "quit" or "skip". */
  predicate IsLowerWord(w: string)
  {
    forall i :: 0 <= i < |w| ==> 'a' <= w[i] <= 'z'
  }

  /** The only characters that lower-case to the small letter x are x itself and its capital. */
  lemma LowerCharInverse(c: char, x: char)
    requires 'a' <= x <= 'z'
    ensures LowerChar(c) == x <==> c == x || c == UpperChar(x)
  {
  }

  /** Comparing `s.lower()` with a lower-case keyword accepts exactly the spellings of the
      keyword in which each letter is written small or capital. */
  lemma LowerEqualsWord(s: string, w: string)
    requires IsLowerWord(w)
    ensures Lower(s) == w <==>
      |s| == |w| && forall i :: 0 <= i < |s| ==> s[i] == w[i] || s[i] == UpperChar(w[i])
  {
    if Lower(s) == w {
      forall i | 0 <= i < |s| ensures s[i] == w[i] || s[i] == UpperChar(w[i]) {
        LowerCharInverse(s[i], w[i]);
      }
    }
    if |s| == |w| && forall i :: 0 <= i < |s| ==> s[i] == w[i] || s[i] == UpperChar(w[i]) {
      forall i | 0 <= i < |s| ensures Lower(s)[i] == w[i] {
        LowerCharInverse(s[i], w[i]);
      }
    }
  }
}
