/** Numbers below 256 as bytes, bit by bit. */
module ByteValues {

  function Bit(v: nat, b: bv8): bv8 {
    if v % 2 == 1 then b else 0
  }

  /** The byte whose bits are the binary digits of `v`. */
  function ToByte(v: nat): bv8
    requires v < 256
  {
    var h1 := v / 2;
    var h2 := h1 / 2;
    var h3 := h2 / 2;
    var h4 := h3 / 2;
    var h5 := h4 / 2;
    var h6 := h5 / 2;
    Bit(v, 1) | Bit(h1, 2) | Bit(h2, 4) | Bit(h3, 8) | Bit(h4, 16) | Bit(h5, 32) | Bit(h6, 64) | Bit(h6 / 2, 128)
  }

  function Pick(x: bool, b: bv8): bv8 {
    if x then b else 0
  }

  lemma BitsApart(a: bool, b: bool, c: bool, d: bool, e: bool, f: bool, g: bool, h: bool)
    ensures var w := Pick(a, 1) | Pick(b, 2) | Pick(c, 4) | Pick(d, 8) | Pick(e, 16) | Pick(f, 32) | Pick(g, 64) | Pick(h, 128);
            && (w & 1 != 0 <==> a) && (w & 2 != 0 <==> b) && (w & 4 != 0 <==> c) && (w & 8 != 0 <==> d)
            && (w & 16 != 0 <==> e) && (w & 32 != 0 <==> f) && (w & 64 != 0 <==> g) && (w & 128 != 0 <==> h)
  {
  }

  lemma BitsOfByte(v: nat)
    requires v < 256
    ensures var w := ToByte(v);
            var h1 := v / 2; var h2 := h1 / 2; var h3 := h2 / 2; var h4 := h3 / 2; var h5 := h4 / 2; var h6 := h5 / 2;
            && (w & 1 != 0 <==> v % 2 == 1) && (w & 2 != 0 <==> h1 % 2 == 1)
            && (w & 4 != 0 <==> h2 % 2 == 1) && (w & 8 != 0 <==> h3 % 2 == 1)
            && (w & 16 != 0 <==> h4 % 2 == 1) && (w & 32 != 0 <==> h5 % 2 == 1)
            && (w & 64 != 0 <==> h6 % 2 == 1) && (w & 128 != 0 <==> h6 / 2 % 2 == 1)
  {
    var h1 := v / 2;
    var h2 := h1 / 2;
    var h3 := h2 / 2;
    var h4 := h3 / 2;
    var h5 := h4 / 2;
    var h6 := h5 / 2;
    BitsApart(v % 2 == 1, h1 % 2 == 1, h2 % 2 == 1, h3 % 2 == 1, h4 % 2 == 1, h5 % 2 == 1, h6 % 2 == 1, h6 / 2 % 2 == 1);
  }

  function Part(on: bool, n: nat): nat {
    if on then n else 0
  }

  /** The number a byte stands for, from its bits. */
  lemma ByteSum(w: bv8)
    ensures w as nat == Part(w & 1 != 0, 1) + Part(w & 2 != 0, 2) + Part(w & 4 != 0, 4) + Part(w & 8 != 0, 8)
                      + Part(w & 16 != 0, 16) + Part(w & 32 != 0, 32) + Part(w & 64 != 0, 64) + Part(w & 128 != 0, 128)
  {
  }

  /** Taking off the last digit of `v / n`. */
  lemma LastDigit(h: nat, n: nat)
    ensures n * h == 2 * n * (h / 2) + Part(h % 2 == 1, n)
  {
    var d := h % 2;
    assert h == 2 * (h / 2) + d;
    if d == 0 {
      assert n * h == n * (2 * (h / 2));
    } else {
      assert n * h == n * (2 * (h / 2)) + n;
    }
  }

  /** The digits of `v` put together again. */
  lemma DigitSum(v: nat)
    requires v < 256
    ensures var h1 := v / 2; var h2 := h1 / 2; var h3 := h2 / 2; var h4 := h3 / 2; var h5 := h4 / 2; var h6 := h5 / 2;
            v == Part(v % 2 == 1, 1) + Part(h1 % 2 == 1, 2) + Part(h2 % 2 == 1, 4) + Part(h3 % 2 == 1, 8)
               + Part(h4 % 2 == 1, 16) + Part(h5 % 2 == 1, 32) + Part(h6 % 2 == 1, 64) + Part(h6 / 2 % 2 == 1, 128)
  {
    hide Part;
    var h1 := v / 2;
    var h2 := h1 / 2;
    var h3 := h2 / 2;
    var h4 := h3 / 2;
    var h5 := h4 / 2;
    var h6 := h5 / 2;
    LastDigit(v, 1);
    LastDigit(h1, 2);
    LastDigit(h2, 4);
    LastDigit(h3, 8);
    LastDigit(h4, 16);
    LastDigit(h5, 32);
    LastDigit(h6, 64);
    LastDigit(h6 / 2, 128);
    assert h6 / 2 / 2 == 0;
  }

  /** `ToByte` is the number itself. */
  lemma ToByteValue(v: nat)
    requires v < 256
    ensures ToByte(v) as nat == v
  {
    hide ToByte;
    BitsOfByte(v);
    ByteSum(ToByte(v));
    DigitSum(v);
  }

  lemma ToByteInjective(u: nat, v: nat)
    requires u < 256 && v < 256 && ToByte(u) == ToByte(v)
    ensures u == v
  {
    hide ToByte;
    ToByteValue(u);
    ToByteValue(v);
  }
}

/** 32-bit words, bytes, and the little-endian and rotation primitives every kernel uses. */
module Words {

  type Word = bv32
  type Byte = bv8

  /** `u32::wrapping_add`. */
  function Add(x: Word, y: Word): Word {
    x + y
  }

  // The bitwise operators under names, for kernels whose operand order matters.

  function BitXor(x: Word, y: Word): Word { x ^ y }

  function BitAnd(x: Word, y: Word): Word { x & y }

  function BitOr(x: Word, y: Word): Word { x | y }

  function BitNot(x: Word): Word { !x }

  /** `u32::rotate_left`. */
  function Rotl(x: Word, r: nat): Word
    requires r <= 32
  {
    x.RotateLeft(r)
  }

  /** The AArch64 `ror` instruction. */
  function Ror(x: Word, r: nat): Word
    requires r <= 32
  {
    x.RotateRight(r)
  }

  /** A rotation written as two shifts, the only form the vector units have. */
  function ShiftOr(x: Word, r: nat): Word
    requires 0 < r < 32
  {
    (x << r) | (x >> (32 - r))
  }

  /** The 32-bit little-endian word at byte offset `off`. */
  function LoadLe(b: seq<Byte>, off: nat): Word
    requires off + 4 <= |b|
  {
    b[off] as Word | (b[off + 1] as Word << 8) | (b[off + 2] as Word << 16) | (b[off + 3] as Word << 24)
  }

  /** `u32::to_le_bytes`. */
  function StoreLe(w: Word): (b: seq<Byte>)
    ensures |b| == 4
  {
    [(w & 0xff) as Byte, ((w >> 8) & 0xff) as Byte, ((w >> 16) & 0xff) as Byte, ((w >> 24) & 0xff) as Byte]
  }

  lemma AddComm(x: Word, y: Word)
    ensures Add(x, y) == Add(y, x)
  {
  }

  lemma AddAssoc(x: Word, y: Word, z: Word)
    ensures Add(Add(x, y), z) == Add(x, Add(y, z))
  {
    assert Add(x + y, z) == x + y + z;
    assert Add(x, y + z) == x + (y + z);
    assert x + y + z == x + (y + z);
  }

  lemma XorComm(x: Word, y: Word)
    ensures BitXor(x, y) == BitXor(y, x)
  {
  }

  lemma XorAssoc(x: Word, y: Word, z: Word)
    ensures BitXor(BitXor(x, y), z) == BitXor(x, BitXor(y, z))
  {
  }

  lemma AndComm(x: Word, y: Word)
    ensures BitAnd(x, y) == BitAnd(y, x)
  {
  }

  lemma OrComm(x: Word, y: Word)
    ensures BitOr(x, y) == BitOr(y, x)
  {
  }

  // ---- Bit identities behind the different spellings of the RFC Boolean functions ----

  /** Selecting by a mask: the xor form of F. */
  lemma SelectByXor(x: Word, y: Word, z: Word)
    ensures z ^ (x & (y ^ z)) == (x & y) | (!x & z)
  {
  }

  /** The same identity with the mask last: the xor form of G. */
  lemma SelectByXorLast(x: Word, y: Word, z: Word)
    ensures y ^ (z & (x ^ y)) == (x & z) | (y & !z)
  {
  }

  /** Disjoint masks do not carry, so addition is disjunction: the add form of G. */
  lemma SelectByAdd(x: Word, y: Word, z: Word)
    ensures (x & z) + (y & !z) == (x & z) | (y & !z)
  {
  }

  lemma JoinSplitBytes(w: Word)
    ensures ((w & 0xff) as Byte) as Word | (((w >> 8) & 0xff) as Byte as Word << 8)
            | (((w >> 16) & 0xff) as Byte as Word << 16) | (((w >> 24) & 0xff) as Byte as Word << 24) == w
  {
  }

  lemma LoadOfStore(w: Word)
    ensures LoadLe(StoreLe(w), 0) == w
  {
    JoinSplitBytes(w);
    var b := StoreLe(w);
    assert b[0] == (w & 0xff) as Byte;
    assert b[1] == ((w >> 8) & 0xff) as Byte;
    assert b[2] == ((w >> 16) & 0xff) as Byte;
    assert b[3] == ((w >> 24) & 0xff) as Byte;
  }

  lemma SplitJoinBytes(a: Byte, b: Byte, c: Byte, d: Byte)
    ensures var w := a as Word | (b as Word << 8) | (c as Word << 16) | (d as Word << 24);
            (w & 0xff) as Byte == a && ((w >> 8) & 0xff) as Byte == b
            && ((w >> 16) & 0xff) as Byte == c && ((w >> 24) & 0xff) as Byte == d
  {
  }

  /** At every offset the loaded word holds the four bytes found there, in their order. */
  lemma StoreOfLoad(b: seq<Byte>, off: nat)
    requires off + 4 <= |b|
    ensures StoreLe(LoadLe(b, off)) == b[off..off + 4]
  {
    SplitJoinBytes(b[off], b[off + 1], b[off + 2], b[off + 3]);
  }

  lemma JoinedValue(a: Byte, b: Byte, c: Byte, d: Byte)
    ensures (a as Word | (b as Word << 8) | (c as Word << 16) | (d as Word << 24)) as nat
         == a as nat + 0x100 * (b as nat) + 0x1_0000 * (c as nat) + 0x100_0000 * (d as nat)
  {
  }

  /** The number a loaded word stands for: the first byte counts least. */
  lemma LoadLeValue(b: seq<Byte>, off: nat)
    requires off + 4 <= |b|
    ensures LoadLe(b, off) as nat
         == b[off] as nat + 0x100 * (b[off + 1] as nat) + 0x1_0000 * (b[off + 2] as nat) + 0x100_0000 * (b[off + 3] as nat)
  {
    JoinedValue(b[off], b[off + 1], b[off + 2], b[off + 3]);
  }

  lemma RotationLiterals(x: Word)
    ensures Rotl(x, 1) == ShiftOr(x, 1) == Ror(x, 31) && Rotl(x, 2) == ShiftOr(x, 2) == Ror(x, 30)
    ensures Rotl(x, 3) == ShiftOr(x, 3) == Ror(x, 29) && Rotl(x, 4) == ShiftOr(x, 4) == Ror(x, 28)
    ensures Rotl(x, 5) == ShiftOr(x, 5) == Ror(x, 27) && Rotl(x, 6) == ShiftOr(x, 6) == Ror(x, 26)
    ensures Rotl(x, 7) == ShiftOr(x, 7) == Ror(x, 25) && Rotl(x, 8) == ShiftOr(x, 8) == Ror(x, 24)
    ensures Rotl(x, 9) == ShiftOr(x, 9) == Ror(x, 23) && Rotl(x, 10) == ShiftOr(x, 10) == Ror(x, 22)
    ensures Rotl(x, 11) == ShiftOr(x, 11) == Ror(x, 21) && Rotl(x, 12) == ShiftOr(x, 12) == Ror(x, 20)
    ensures Rotl(x, 13) == ShiftOr(x, 13) == Ror(x, 19) && Rotl(x, 14) == ShiftOr(x, 14) == Ror(x, 18)
    ensures Rotl(x, 15) == ShiftOr(x, 15) == Ror(x, 17) && Rotl(x, 16) == ShiftOr(x, 16) == Ror(x, 16)
    ensures Rotl(x, 17) == ShiftOr(x, 17) == Ror(x, 15) && Rotl(x, 18) == ShiftOr(x, 18) == Ror(x, 14)
    ensures Rotl(x, 19) == ShiftOr(x, 19) == Ror(x, 13) && Rotl(x, 20) == ShiftOr(x, 20) == Ror(x, 12)
    ensures Rotl(x, 21) == ShiftOr(x, 21) == Ror(x, 11) && Rotl(x, 22) == ShiftOr(x, 22) == Ror(x, 10)
    ensures Rotl(x, 23) == ShiftOr(x, 23) == Ror(x, 9) && Rotl(x, 24) == ShiftOr(x, 24) == Ror(x, 8)
    ensures Rotl(x, 25) == ShiftOr(x, 25) == Ror(x, 7) && Rotl(x, 26) == ShiftOr(x, 26) == Ror(x, 6)
    ensures Rotl(x, 27) == ShiftOr(x, 27) == Ror(x, 5) && Rotl(x, 28) == ShiftOr(x, 28) == Ror(x, 4)
    ensures Rotl(x, 29) == ShiftOr(x, 29) == Ror(x, 3) && Rotl(x, 30) == ShiftOr(x, 30) == Ror(x, 2)
    ensures Rotl(x, 31) == ShiftOr(x, 31) == Ror(x, 1)
  {
  }

  /** The scalar rotation, the shift form and `ror(32 - r)` are one function of `x` for every rotation amount. */
  lemma RotationsAgree(x: Word, r: nat)
    requires 0 < r < 32
    ensures Rotl(x, r) == ShiftOr(x, r) == Ror(x, 32 - r)
  {
    hide *;
    RotationLiterals(x);
    match r {
      case 1 =>
      case 2 =>
      case 3 =>
      case 4 =>
      case 5 =>
      case 6 =>
      case 7 =>
      case 8 =>
      case 9 =>
      case 10 =>
      case 11 =>
      case 12 =>
      case 13 =>
      case 14 =>
      case 15 =>
      case 16 =>
      case 17 =>
      case 18 =>
      case 19 =>
      case 20 =>
      case 21 =>
      case 22 =>
      case 23 =>
      case 24 =>
      case 25 =>
      case 26 =>
      case 27 =>
      case 28 =>
      case 29 =>
      case 30 =>
      case 31 =>
    }
  }
}
