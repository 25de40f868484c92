/** Byte-level helpers shared by every wire form of the driver: the nibble
    split of a byte, single bits as pin levels, and the reverse assembly. */
module Bits {
  /** A C `uint8_t`. */
  type byte = bv8

  /** Bits 7..4 of `b`, moved down to bits 3..0 (the source's `b >> 4 & 0x0F`). */
  function HighNibble(b: byte): byte
  {
    (b >> 4) & 0x0F
  }

  /** Bits 3..0 of `b` (the source's `b & 0x0F`). */
  function LowNibble(b: byte): byte
  {
    b & 0x0F
  }

  /** Bit `i` of `n` as a pin level (the source's `(n >> i) & 0x01`). */
  function Bit(n: byte, i: nat): bool
    requires i < 8
  {
    (n >> i) & 1 == 1
  }

  /** The nibble whose bits 0..3 are the four levels, as a reader that starts
      from zero and ORs in one bit per high line builds it. */
  function NibbleOf(b0: bool, b1: bool, b2: bool, b3: bool): byte
  {
    (if b0 then 1 else 0) | (if b1 then 2 else 0) | (if b2 then 4 else 0) | (if b3 then 8 else 0)
  }

  /** Both nibbles are below 16; the high one is the top half of the byte
      moved down, the low one is what remains of the byte without it. */
  lemma NibblesSplit(b: byte)
    ensures HighNibble(b) < 16 && HighNibble(b) << 4 == b & 0xF0
    ensures LowNibble(b) < 16 && LowNibble(b) | (b & 0xF0) == b
  {
  }

  /** A level is high exactly when the bit is set in the byte. */
  lemma BitIsMask(n: byte, i: nat)
    requires i < 8
    ensures Bit(n, i) <==> n & (1 << i) != 0
  {
  }

  /** The assembled nibble is below 16 and has the four levels as its bits. */
  lemma NibbleOfBits(b0: bool, b1: bool, b2: bool, b3: bool)
    ensures NibbleOf(b0, b1, b2, b3) < 16
    ensures var n := NibbleOf(b0, b1, b2, b3); Bit(n, 0) == b0 && Bit(n, 1) == b1 && Bit(n, 2) == b2 && Bit(n, 3) == b3
  {
  }

  /** A byte is its high nibble followed by its low nibble. */
  lemma NibblesJoin(b: byte)
    ensures (HighNibble(b) << 4) | LowNibble(b) == b
  {
  }

  /** Reading back the four levels a nibble was driven with gives the nibble. */
  lemma NibbleLevels(n: byte)
    requires n < 16
    ensures NibbleOf(Bit(n, 0), Bit(n, 1), Bit(n, 2), Bit(n, 3)) == n
  {
  }

  /** Joining two nibbles and splitting the byte again gives them back. */
  lemma NibbleJoinSplit(h: byte, l: byte)
    requires h < 16 && l < 16
    ensures HighNibble((h << 4) | l) == h && LowNibble((h << 4) | l) == l
  {
  }
}
