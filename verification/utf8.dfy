/** Rune counting over Go byte strings, as Go's `unicode/utf8` does it: a
    well-formed UTF-8 sequence (RFC 3629, section 4) counts as one rune, and
    every byte that does not start one counts as one rune on its own (the
    decoder's RuneError of width 1). */
module Utf8 {
  import opened GoStrings

  /** What a first byte announces, following Go's `first` table: an ASCII
      byte, a byte that can never start a sequence, or the start of a
      sequence of `size` bytes whose second byte must lie in `lo..hi`. */
  datatype LeadByte = Ascii | Invalid | Starter(size: nat, lo: uint8, hi: uint8)

  const RuneSelf: uint8 := 0x80

  /** Continuation bytes of a multi-byte sequence lie in 0x80..0xBF. */
  predicate IsContinuation(b: uint8) {
    0x80 <= b <= 0xBF
  }

  function Classify(c: uint8): (l: LeadByte)
    ensures l.Starter? ==> 2 <= l.size <= 4
  {
    if c < RuneSelf then Ascii
    else if c <= 0xC1 then Invalid
    else if c <= 0xDF then Starter(2, 0x80, 0xBF)
    else if c == 0xE0 then Starter(3, 0xA0, 0xBF)
    else if c <= 0xEC then Starter(3, 0x80, 0xBF)
    else if c == 0xED then Starter(3, 0x80, 0x9F)
    else if c <= 0xEF then Starter(3, 0x80, 0xBF)
    else if c == 0xF0 then Starter(4, 0x90, 0xBF)
    else if c <= 0xF3 then Starter(4, 0x80, 0xBF)
    else if c == 0xF4 then Starter(4, 0x80, 0x8F)
    else Invalid
  }

  /** True when `s` begins with a complete, well-formed multi-byte sequence
      announced by its first byte. */
  predicate StartsWithEncodedRune(s: GoString)
    requires |s| > 0
  {
    match Classify(s[0])
    case Starter(size, lo, hi) =>
      && size <= |s|
      && lo <= s[1] <= hi
      && forall j | 2 <= j < size :: IsContinuation(s[j])
    case _ => false
  }

  /** How many bytes the first rune of `s` occupies. */
  function FirstRuneWidth(s: GoString): (w: nat)
    requires |s| > 0
    ensures 1 <= w <= 4 && w <= |s|
    ensures w > 1 <==> StartsWithEncodedRune(s)
    ensures w > 1 ==> w == Classify(s[0]).size
  {
    match Classify(s[0])
    case Ascii => 1
    case Invalid => 1
    case Starter(size, lo, hi) =>
      if |s| < size then 1
      else if s[1] < lo || hi < s[1] then 1
      else if size == 2 then 2
      else if !IsContinuation(s[2]) then 1
      else if size == 3 then 3
      else if !IsContinuation(s[3]) then 1
      else 4
  }

  /** `utf8.RuneCountInString`: at least one rune per four bytes, at most one
      per byte, and none exactly for the empty string. */
  function RuneCountInString(s: GoString): (n: nat)
    ensures n == 0 <==> |s| == 0
    ensures n <= |s| <= 4 * n
    decreases |s|
  {
    if |s| == 0 then 0
    else 1 + RuneCountInString(s[FirstRuneWidth(s)..])
  }

  /** On pure ASCII text the rune count is the byte count. */
  lemma {:induction false} AsciiRuneCount(s: GoString)
    requires forall i | 0 <= i < |s| :: s[i] < RuneSelf
    ensures RuneCountInString(s) == |s|
    decreases |s|
  {
    if |s| > 0 {
      assert FirstRuneWidth(s) == 1;
      AsciiRuneCount(s[1..]);
    }
  }
}
