/** The few operations of java.lang.String that the plugin relies on, over Dafny strings. */
module JavaStrings {

  /** The per-character effect of String.toLowerCase in a non-Turkish locale, restricted
      to the characters it turns into a single ASCII letter: 'A'..'Z' and the Kelvin sign
      U+212A, which lowers to 'k'. (U+0130 becomes "i\u0307" there, which ends in a
      combining mark and so cannot complete ".ipa".) Every other character is returned
      unchanged. */
  function LowerChar(c: char): char
  {
    if 'A' <= c <= 'Z' then (c as int - 'A' as int + 'a' as int) as char
    else if c == '\U{212A}' then 'k'
    else c
  }

  /** String.toLowerCase: each character lowered on its own, so the length is kept. */
  function ToLowerCase(s: string): (r: string)
    ensures |r| == |s|
    ensures forall i :: 0 <= i < |s| ==> r[i] == LowerChar(s[i])
  {
    if s == [] then [] else [LowerChar(s[0])] + ToLowerCase(s[1..])
  }

  /** String.endsWith */
  predicate EndsWith(s: string, suffix: string)
  {
    |suffix| <= |s| && s[|s| - |suffix|..] == suffix
  }

  /** String.startsWith */
  predicate StartsWith(s: string, prefix: string)
  {
    |prefix| <= |s| && s[..|prefix|] == prefix
  }

  /** Lowering an already lowered string changes nothing. */
  lemma LowerCaseIdempotent(s: string)
    ensures ToLowerCase(ToLowerCase(s)) == ToLowerCase(s)
  {
    var once := ToLowerCase(s);
    var twice := ToLowerCase(once);
    assert forall i :: 0 <= i < |s| ==> twice[i] == once[i];
  }

  /** A concatenation ends with its right operand: `prefix + body` shows `body` verbatim. */
  lemma ConcatEndsWith(prefix: string, body: string)
    ensures EndsWith(prefix + body, body)
  {
    assert (prefix + body)[|prefix|..] == body;
  }

  /** Two prefixes that differ at some position cannot both start one string. */
  lemma DifferingPrefix(s: string, p: string, q: string, k: nat)
    requires StartsWith(s, p)
    requires k < |p| && k < |q| && p[k] != q[k]
    ensures !StartsWith(s, q)
  {
    assert s[k] == s[..|p|][k] == p[k];
  }
}
