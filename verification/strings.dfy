/**
 * Upper-casing as Go's `strings.ToUpper` does it, rune by rune, restricted to
 * the runes that matter when the result is compared with an ASCII command:
 * ASCII lower-case letters, and the two non-ASCII runes whose upper-case form
 * is ASCII (dotless i, U+0131, becomes 'I'; long s, U+017F, becomes 'S').
 * Every other rune is kept as it is.
 */
module Strings {

  const DotlessI: char := '\U{0131}'
  const LongS: char := '\U{017F}'

  predicate IsAsciiLower(c: char) {
    'a' <= c <= 'z'
  }

  predicate IsAsciiUpper(c: char) {
    'A' <= c <= 'Z'
  }

  /** The upper-case form of one rune. */
  function UpperRune(c: char): (u: char)
    ensures !IsAsciiLower(u)
    ensures !IsAsciiLower(c) && c != DotlessI && c != LongS ==> u == c
    ensures IsAsciiLower(c) ==> IsAsciiUpper(u) && u as int + 32 == c as int
  {
    if IsAsciiLower(c) then (c as int - 32) as char
    else if c == DotlessI then 'I'
    else if c == LongS then 'S'
    else c
  }

  /** `strings.ToUpper`: the same length, each rune upper-cased in place. */
  function ToUpper(s: string): (r: string)
    ensures |r| == |s|
    ensures forall i :: 0 <= i < |s| ==> r[i] == UpperRune(s[i])
  {
    if s == [] then [] else [UpperRune(s[0])] + ToUpper(s[1..])
  }

  /**
   * The runes whose upper-case form is a given ASCII upper-case letter or
   * punctuation rune `u`: `u` itself, its lower-case letter, and the one
   * non-ASCII rune that folds onto 'I' or 'S'.
   */
  lemma UpperRuneOnto(c: char, u: char)
    requires IsAsciiUpper(u) || (u as int < 128 && !IsAsciiLower(u))
    ensures UpperRune(c) == u <==>
              || c == u
              || (IsAsciiUpper(u) && c as int == u as int + 32)
              || (u == 'I' && c == DotlessI)
              || (u == 'S' && c == LongS)
  {
  }

  /** Comparing an upper-cased text with a command is a rune-by-rune comparison. */
  lemma ToUpperEquals(s: string, cmd: string)
    ensures ToUpper(s) == cmd <==>
              |s| == |cmd| && forall i :: 0 <= i < |s| ==> UpperRune(s[i]) == cmd[i]
  {
    if |s| == |cmd| && forall i :: 0 <= i < |s| ==> UpperRune(s[i]) == cmd[i] {
      assert forall i :: 0 <= i < |s| ==> ToUpper(s)[i] == cmd[i];
    }
  }
}
