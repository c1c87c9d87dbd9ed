/** Hexadecimal digits as the controller writes and reads them
    (dmxctl/interface.cpp:280-297 and 765-772). */
module Hex {
  import opened Common

  /** The `hexits` table of the protocol encoders. */
  const Hexits: string := "0123456789ABCDEF"
  /** The lower-case digits that the decoders accept as well. */
  const LowerHexits: string := "0123456789abcdef"

  predicate IsHex(c: char)
  {
    '0' <= c <= '9' || 'A' <= c <= 'F' || 'a' <= c <= 'f'
  }

  /** `hexToNybble`: the digit's value, or -1 for a character that is no hex digit. */
  function HexToNybble(c: char): (r: int)
    ensures -1 <= r < 16
    ensures r == -1 <==> !IsHex(c)
  {
    if '0' <= c <= '9' then (c as int) - ('0' as int)
    else if 'A' <= c <= 'F' then (c as int) - ('A' as int) + 10
    else if 'a' <= c <= 'f' then (c as int) - ('a' as int) + 10
    else -1
  }

  /** The value `hexToNybble` gives is exactly the position of the character in
      one of the two digit tables, and -1 means it is in neither. */
  lemma NybbleIsTablePosition(c: char)
    ensures HexToNybble(c) >= 0 ==> Hexits[HexToNybble(c)] == c || LowerHexits[HexToNybble(c)] == c
    ensures HexToNybble(c) == -1 ==> forall n :: 0 <= n < 16 ==> Hexits[n] != c && LowerHexits[n] != c
  {
  }

  /** `hexToByte`: the first character is the LOW nibble, the second the high one. */
  function HexToByte(lo: char, hi: char): (r: int)
    ensures r == -1 <==> !IsHex(lo) || !IsHex(hi)
    ensures r >= 0 ==> r < 256 && r % 16 == HexToNybble(lo) && r / 16 == HexToNybble(hi)
  {
    var a, b := HexToNybble(lo), HexToNybble(hi);
    if a != -1 && b != -1 then a + 16 * b else -1
  }

  /** The two characters the encoders emit for one byte: `hexits[b & 15]` then
      `hexits[b >> 4]`. */
  function EncodeByte(b: byte): (s: string)
    ensures |s| == 2 && IsHex(s[0]) && IsHex(s[1])
  {
    [Hexits[b % 16], Hexits[b / 16]]
  }

  /** Every upper-case table digit decodes to its own position. */
  lemma HexitValue(n: nat)
    requires n < 16
    ensures IsHex(Hexits[n]) && HexToNybble(Hexits[n]) == n
  {
  }

  /** Decoding the two-character encoding of a byte gives the byte back. */
  lemma {:induction false} ByteRoundTrip(b: byte)
    ensures HexToByte(EncodeByte(b)[0], EncodeByte(b)[1]) == b
  {
    HexitValue(b % 16);
    HexitValue(b / 16);
  }
}
