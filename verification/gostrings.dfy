/** Go strings are immutable byte sequences; this module gives them a Dafny
    shape and the few operations the rest of the model needs. */
module GoStrings {

  newtype uint8 = b: int | 0 <= b < 256

  /** A Go `string` or `[]byte`: a sequence of bytes with no encoding promise. */
  type GoString = seq<uint8>

  /** True when every character of a Dafny string literal is 7-bit ASCII, so
      that its UTF-8 encoding is one byte per character. */
  predicate IsAscii(s: string) {
    forall i | 0 <= i < |s| :: s[i] as int < 0x80
  }

  /** The bytes of an ASCII literal, as the Go compiler stores it. */
  function Lit(s: string): (r: GoString)
    requires IsAscii(s)
    ensures |r| == |s|
    ensures forall i | 0 <= i < |s| :: r[i] as int == s[i] as int
  {
    seq(|s|, i requires 0 <= i < |s| => s[i] as int as uint8)
  }

  /** `IsPrefix(t, s)` is `strings.HasPrefix(s, t)`: `s` starts with `t`. */
  predicate IsPrefix(t: GoString, s: GoString) {
    |t| <= |s| && s[..|t|] == t
  }

  /** `strings.Contains(s, t)`: `t` occurs somewhere in `s`. */
  predicate Contains(s: GoString, t: GoString) {
    exists i | 0 <= i <= |s| :: IsPrefix(t, s[i..])
  }

  /** Whatever surrounds it, a string occurs in a concatenation that holds it. */
  lemma ContainsInfix(p: GoString, t: GoString, q: GoString)
    ensures Contains(p + t + q, t)
  {
    var s := p + t + q;
    assert s[|p|..][..|t|] == t;
    assert IsPrefix(t, s[|p|..]);
  }
}
