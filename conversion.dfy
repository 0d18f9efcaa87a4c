/** Decoding of the three conversion-data bytes into the signed result the
    driver stores, exactly as the driver computes it: big-endian assembly into a
    32-bit unsigned word, then the top eight bits forced to ones when the word's
    bit 20 (mask 0x0010_0000) is set, then the word reinterpreted as a signed
    32-bit integer. Beside it stands the 24-bit two's-complement reading that the
    driver's documentation promises, so that the lemmas can say exactly where the
    two agree. */
module Conversion {
  import opened Registers

  /** A C++ uint32_t, as its bit pattern. */
  type Word = bv32

  /** A C++ int32_t. */
  type Int32 = x: int | -0x8000_0000 <= x < 0x8000_0000

  const TwoPow23: int := 0x80_0000
  const TwoPow24: int := 0x100_0000
  const TwoPow32: int := 0x1_0000_0000

  /** The test the driver makes before extending the sign: mask 0x0010_0000. */
  predicate Bit20(u: Word) { u & 0x0010_0000 == 0x0010_0000 }

  /** The sign bit of a 24-bit two's-complement sample. */
  predicate Bit23(u: Word) { u & 0x0080_0000 == 0x0080_0000 }

  /** Byte k of a word, counting from the least significant. */
  function ByteOf(w: Word, k: nat): Byte
    requires k < 4
  {
    if k == 0 then (w & 0xFF) as Byte
    else if k == 1 then ((w >> 8) & 0xFF) as Byte
    else if k == 2 then ((w >> 16) & 0xFF) as Byte
    else (w >> 24) as Byte
  }

  /** The number a word denotes as a uint32_t: the base-256 value of its bytes. */
  function Unsigned(w: Word): (n: nat)
    ensures n < TwoPow32
  {
    ByteOf(w, 3) as int * 0x100_0000 + ByteOf(w, 2) as int * 0x1_0000
      + ByteOf(w, 1) as int * 0x100 + ByteOf(w, 0) as int
  }

  /** Reinterpreting a uint32_t bit pattern as an int32_t (the driver's union):
      the unsigned value, less 2^32 when the top bit is set. */
  function ToInt32(w: Word): (x: Int32)
    ensures x < 0 <==> w >= 0x8000_0000
    ensures x % TwoPow32 == Unsigned(w)
  {
    WrapResidue(Unsigned(w), ByteOf(w, 3) >= 0x80);
    if ByteOf(w, 3) < 0x80 then Unsigned(w) else Unsigned(w) - TwoPow32
  }

  /** Taking 2^32 off a 32-bit value, or not, keeps its residue modulo 2^32. */
  lemma WrapResidue(n: int, negative: bool)
    requires 0 <= n < TwoPow32
    ensures (if negative then n - TwoPow32 else n) % TwoPow32 == n
  {
  }

  /** A byte's value lies in 0..255, and its comparison with 0x80 agrees with
      its value's. */
  lemma ByteValue(b: Byte)
    ensures 0 <= b as int < 0x100
    ensures b < 0x80 <==> b as int < 0x80
  {
  }

  /** Three successive shift-ors, most significant byte first: the word holds
      the three bytes in its low 24 bits, in order, and nothing above them. */
  function Assemble(b0: Byte, b1: Byte, b2: Byte): (u: Word)
    ensures u < 0x100_0000
    ensures ByteOf(u, 3) == 0 && ByteOf(u, 2) == b0 && ByteOf(u, 1) == b1 && ByteOf(u, 0) == b2
  {
    var u := b0 as Word;
    var u := (u << 8) | b1 as Word;
    (u << 8) | b2 as Word
  }

  /** The assembled word's unsigned value is the big-endian value of the bytes. */
  lemma AssembleValue(b0: Byte, b1: Byte, b2: Byte)
    ensures Unsigned(Assemble(b0, b1, b2)) == b0 as int * 0x1_0000 + b1 as int * 0x100 + b2 as int
  {
  }

  /** 256 to the power k. */
  function Pow256(k: nat): (p: nat)
    ensures p >= 1
  {
    if k == 0 then 1 else 256 * Pow256(k - 1)
  }

  /** The value of a byte string sent most significant byte first; an n-byte
      string denotes a number below 256^n. */
  function BigEndian(s: seq<Byte>): (n: nat)
    ensures n < Pow256(|s|)
  {
    if s == [] then 0 else BigEndian(s[..|s| - 1]) * 256 + s[|s| - 1] as int
  }

  /** Three big-endian bytes have the value b0·65536 + b1·256 + b2. */
  lemma {:induction false} BigEndianThree(b0: Byte, b1: Byte, b2: Byte)
    ensures BigEndian([b0, b1, b2]) == b0 as int * 0x1_0000 + b1 as int * 0x100 + b2 as int
  {
    assert [b0, b1, b2][..2] == [b0, b1];
    assert [b0, b1][..1] == [b0];
    assert [b0][..0] == [];
    assert BigEndian([b0]) == b0 as int;
    assert BigEndian([b0, b1]) == b0 as int * 0x100 + b1 as int;
  }

  /** The driver's three shift-ors compute the big-endian value of the bytes. */
  lemma {:induction false} AssembleIsBigEndian(b0: Byte, b1: Byte, b2: Byte)
    ensures Unsigned(Assemble(b0, b1, b2)) == BigEndian([b0, b1, b2])
  {
    AssembleValue(b0, b1, b2);
    BigEndianThree(b0, b1, b2);
  }

  /** The driver's sign step: bits 31:24 forced to ones when bit 20 is set,
      the low 24 bits kept. */
  function SignExtendAsWritten(u: Word): (w: Word)
    requires u < 0x100_0000
    ensures w & 0xFF_FFFF == u
    ensures w & 0xFF00_0000 == (if Bit20(u) then 0xFF00_0000 else 0)
  {
    UpperByteMasks(u);
    if Bit20(u) then
      assert (u | 0xFF00_0000) & 0xFF_FFFF == u;
      u | 0xFF00_0000
    else u
  }

  /** For a 24-bit word, or-ing in 0xFF00_0000 fills the upper byte and keeps
      the lower three. */
  lemma UpperByteMasks(u: Word)
    requires u < 0x100_0000
    ensures u & 0xFF_FFFF == u && u & 0xFF00_0000 == 0
    ensures (u | 0xFF00_0000) & 0xFF_FFFF == u
    ensures (u | 0xFF00_0000) & 0xFF00_0000 == 0xFF00_0000
  {
  }

  /** The same step read byte by byte: the top byte becomes 0xFF or 0x00. */
  lemma {:induction false} SignExtendBytes(u: Word)
    requires u < 0x100_0000
    ensures var w := SignExtendAsWritten(u);
      ByteOf(w, 3) == (if Bit20(u) then 0xFF else 0)
      && ByteOf(w, 2) == ByteOf(u, 2) && ByteOf(w, 1) == ByteOf(u, 1) && ByteOf(w, 0) == ByteOf(u, 0)
  {
    if Bit20(u) {
      assert SignExtendAsWritten(u) == u | 0xFF00_0000;
    }
  }

  /** The value readConversion stores for the three bytes it received. */
  function DecodeConversion(b0: Byte, b1: Byte, b2: Byte): (x: Int32)
    ensures x < 0 <==> Bit20(Assemble(b0, b1, b2))
  {
    SignExtendBytes(Assemble(b0, b1, b2));
    ToInt32(SignExtendAsWritten(Assemble(b0, b1, b2)))
  }

  /** The reading the driver's documentation promises: a 24-bit
      two's-complement sample. */
  function TwosComplement24(u: int): (x: int)
    requires 0 <= u < TwoPow24
    ensures -TwoPow23 <= x < TwoPow23
    ensures x % TwoPow24 == u
    ensures x < 0 <==> u >= TwoPow23
  {
    if u >= TwoPow23 then u - TwoPow24 else u
  }

  /** What the driver stores, as a number: the big-endian value of the bytes,
      less 2^24 exactly when bit 20 of the assembled word is set. */
  lemma {:induction false} DecodeConversionValue(b0: Byte, b1: Byte, b2: Byte)
    ensures var u := Unsigned(Assemble(b0, b1, b2));
      DecodeConversion(b0, b1, b2) == if Bit20(Assemble(b0, b1, b2)) then u - TwoPow24 else u
  {
    SignExtendBytes(Assemble(b0, b1, b2));
  }

  /** The stored value keeps the big-endian value of the bytes as its low 24
      bits (as a residue modulo 2^24), and it is negative, with its upper 8 bits
      all ones, exactly when bit 20 is set; otherwise its upper 8 bits are zero. */
  lemma {:induction false} DecodeConversionBits(b0: Byte, b1: Byte, b2: Byte)
    ensures DecodeConversion(b0, b1, b2) % TwoPow24 == BigEndian([b0, b1, b2])
    ensures var x := DecodeConversion(b0, b1, b2);
      (x < 0 <==> Bit20(Assemble(b0, b1, b2)))
      && (x < 0 ==> -TwoPow24 <= x) && (x >= 0 ==> x < TwoPow24)
  {
    DecodeConversionValue(b0, b1, b2);
    AssembleIsBigEndian(b0, b1, b2);
    OffsetResidue(DecodeConversion(b0, b1, b2), Unsigned(Assemble(b0, b1, b2)),
      Bit20(Assemble(b0, b1, b2)));
  }

  /** A 24-bit value, less 2^24 or not, keeps its residue modulo 2^24. */
  lemma OffsetResidue(x: int, u: int, negative: bool)
    requires 0 <= u < TwoPow24
    requires x == if negative then u - TwoPow24 else u
    ensures x % TwoPow24 == u
    ensures x < 0 <==> negative
    ensures negative ==> -TwoPow24 <= x
    ensures !negative ==> x < TwoPow24
  {
  }

  /** Bit 23 of a 24-bit word is set exactly when its value is at least 2^23. */
  lemma Bit23Value(u: Word)
    requires u < 0x100_0000
    ensures Bit23(u) <==> Unsigned(u) >= TwoPow23
  {
    Bit23Byte(u);
    ByteValue(ByteOf(u, 2));
    ByteValue(ByteOf(u, 1));
    ByteValue(ByteOf(u, 0));
    DigitsAtLeast(ByteOf(u, 2) as int, ByteOf(u, 1) as int, ByteOf(u, 0) as int);
  }
  /** Bit 23 is the top bit of byte 2. */
  lemma Bit23Byte(u: Word)
    requires u < 0x100_0000
    ensures Bit23(u) <==> ByteOf(u, 2) >= 0x80
    ensures ByteOf(u, 3) == 0
  {}
  /** A three-digit base-256 number is at least 2^23 exactly when its leading
      digit is at least 0x80. */
  lemma DigitsAtLeast(b2: int, b1: int, b0: int)
    requires 0 <= b2 < 256 && 0 <= b1 < 256 && 0 <= b0 < 256
    ensures b2 * 0x1_0000 + b1 * 0x100 + b0 >= TwoPow23 <==> b2 >= 0x80
  {}

  /** The stored value is the 24-bit two's-complement reading of the bytes
      exactly when bit 20 and bit 23 of the assembled word agree. */
  lemma {:induction false} AgreesWithTwosComplementIff(b0: Byte, b1: Byte, b2: Byte)
    ensures var u := Assemble(b0, b1, b2);
      DecodeConversion(b0, b1, b2) == TwosComplement24(Unsigned(u)) <==> (Bit20(u) <==> Bit23(u))
  {
    DecodeConversionValue(b0, b1, b2);
    Bit23Value(Assemble(b0, b1, b2));
  }

  /** Bytes 0x80 0x00 0x00, the most negative sample, are stored as +8388608. */
  lemma {:induction false} MostNegativeSampleReadsPositive()
    ensures DecodeConversion(0x80, 0x00, 0x00) == 8388608
    ensures TwosComplement24(Unsigned(Assemble(0x80, 0x00, 0x00))) == -8388608
  {
    DecodeConversionValue(0x80, 0x00, 0x00);
    AssembleValue(0x80, 0x00, 0x00);
  }

  /** Bytes 0x7F 0xFF 0xFF, the most positive sample, are stored as -8388609. */
  lemma {:induction false} MostPositiveSampleReadsNegative()
    ensures DecodeConversion(0x7F, 0xFF, 0xFF) == -8388609
    ensures TwosComplement24(Unsigned(Assemble(0x7F, 0xFF, 0xFF))) == 8388607
  {
    DecodeConversionValue(0x7F, 0xFF, 0xFF);
    AssembleValue(0x7F, 0xFF, 0xFF);
  }

  /** Bytes 0xFF 0xFF 0xFF are stored as -1, as two's complement reads them. */
  lemma {:induction false} AllOnesReadsMinusOne()
    ensures DecodeConversion(0xFF, 0xFF, 0xFF) == -1
    ensures TwosComplement24(Unsigned(Assemble(0xFF, 0xFF, 0xFF))) == -1
  {
    DecodeConversionValue(0xFF, 0xFF, 0xFF);
    AssembleValue(0xFF, 0xFF, 0xFF);
  }
}
