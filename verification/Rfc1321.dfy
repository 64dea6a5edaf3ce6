/**
 RFC 1321 as one reference definition, in the shift-register form of section 3.4: step `i` turns the
 role tuple (a, b, c, d) into (d, b + ((a + mix + K(i) + X[MSG(i)]) <<< S(i)), b, c). Every kernel in
 this project is proved equal to `Compress`, and every hashing route to `Md5`.
 */
module Rfc1321 {
  import opened Words
  import opened Consts
  import ByteValues

  /** Four chaining words, or four working words in the roles a, b, c, d of a step. */
  datatype State = State(a: Word, b: Word, c: Word, d: Word) {
    function Words(): (s: seq<Word>)
      ensures |s| == 4
    {
      [a, b, c, d]
    }
  }

  /** The four words of a chaining array, `state[0]` to `state[3]`. */
  function StateOf(s: seq<Word>): State
    requires |s| == 4
  {
    State(s[0], s[1], s[2], s[3])
  }

  const IV: State := StateOf(STATE_INIT)

  function F(x: Word, y: Word, z: Word): Word { (x & y) | (!x & z) }

  function G(x: Word, y: Word, z: Word): Word { (x & z) | (y & !z) }

  function H(x: Word, y: Word, z: Word): Word { x ^ y ^ z }

  function I(x: Word, y: Word, z: Word): Word { y ^ (x | !z) }

  // The ways the kernels spell F, G, H and I with the named operators. `Reversed` has the operands the other way round.

  lemma FByMask(x: Word, y: Word, z: Word)
    ensures BitXor(z, BitAnd(x, BitXor(y, z))) == F(x, y, z)
  {
    SelectByXor(x, y, z);
  }

  lemma FReversed(x: Word, y: Word, z: Word)
    ensures BitXor(BitAnd(BitXor(z, y), x), z) == F(x, y, z)
  {
    hide F, BitXor, BitAnd;
    FByMask(x, y, z);
    XorComm(z, y);
    AndComm(BitXor(z, y), x);
    XorComm(BitAnd(x, BitXor(y, z)), z);
  }

  lemma GByMask(x: Word, y: Word, z: Word)
    ensures BitXor(y, BitAnd(z, BitXor(x, y))) == G(x, y, z)
  {
    SelectByXorLast(x, y, z);
  }

  lemma GBySum(x: Word, y: Word, z: Word)
    ensures Add(BitAnd(BitNot(z), y), BitAnd(z, x)) == G(x, y, z)
  {
    SelectByAdd(x, y, z);
    assert (!z & y) + (z & x) == (x & z) + (y & !z);
  }

  lemma HByXor(x: Word, y: Word, z: Word)
    ensures BitXor(BitXor(x, y), z) == H(x, y, z)
  {
    assert BitXor(x, y) == x ^ y;
    assert BitXor(x ^ y, z) == x ^ y ^ z;
  }

  lemma HReversed(x: Word, y: Word, z: Word)
    ensures BitXor(BitXor(z, y), x) == H(x, y, z)
  {
    hide H, BitXor;
    HByXor(x, y, z);
    XorComm(z, y);
    XorComm(BitXor(y, z), x);
    XorAssoc(x, y, z);
  }

  lemma IByOr(x: Word, y: Word, z: Word)
    ensures BitXor(y, BitOr(x, BitNot(z))) == I(x, y, z)
  {
  }

  lemma IReversed(x: Word, y: Word, z: Word)
    ensures BitXor(BitOr(BitNot(z), x), y) == I(x, y, z)
  {
    hide I, BitXor, BitOr, BitNot;
    IByOr(x, y, z);
    OrComm(BitNot(z), x);
    XorComm(BitOr(x, BitNot(z)), y);
  }

  /** The Boolean function of step `i`. */
  function Mix(i: nat, x: Word, y: Word, z: Word): Word {
    if i < 16 then F(x, y, z)
    else if i < 32 then G(x, y, z)
    else if i < 48 then H(x, y, z)
    else I(x, y, z)
  }

  /** The word that step `i` writes, from the roles `r` and the step's message word. */
  function StepWord(r: State, w: Word, i: nat): Word
    requires i < 64
  {
    Add(r.b, Rotl(Add(Add(Add(r.a, Mix(i, r.b, r.c, r.d)), K(i)), w), S(i)))
  }

  function Step(r: State, m: seq<Word>, i: nat): State
    requires |m| == 16 && i < 64
  {
    State(r.d, StepWord(r, m[MSG(i)], i), r.b, r.c)
  }

  /** The role tuple after the first `n` steps. */
  function Steps(r: State, m: seq<Word>, n: nat): State
    requires |m| == 16 && n <= 64
    decreases m, n
  {
    if n == 0 then r else Step(Steps(r, m, n - 1), m, n - 1)
  }

  /** Word-wise wrapping sum of two states. */
  function Sum(s: State, t: State): State {
    State(Add(s.a, t.a), Add(s.b, t.b), Add(s.c, t.c), Add(s.d, t.d))
  }

  /** All 64 steps and the closing feed-forward. 64 is a multiple of four, so the roles are a, b, c, d again. */
  function CompressWords(s: State, m: seq<Word>): State
    requires |m| == 16
  {
    Sum(s, Steps(s, m, 64))
  }

  /** The sixteen little-endian message words of a block. */
  function BlockWords(block: seq<Byte>): (m: seq<Word>)
    requires |block| == 64
    ensures |m| == 16
  {
    seq(16, i requires 0 <= i < 16 => LoadLe(block, 4 * i))
  }

  /** Word `k` of a block is the little-endian number of its bytes `4 * k` to `4 * k + 3`. */
  lemma BlockWordBytes(block: seq<Byte>, k: nat)
    requires |block| == 64 && k < 16
    ensures StoreLe(BlockWords(block)[k]) == block[4 * k..4 * k + 4]
    ensures BlockWords(block)[k] as nat == block[4 * k] as nat + 0x100 * (block[4 * k + 1] as nat)
                                         + 0x1_0000 * (block[4 * k + 2] as nat) + 0x100_0000 * (block[4 * k + 3] as nat)
  {
    hide LoadLe, StoreLe;
    StoreOfLoad(block, 4 * k);
    LoadLeValue(block, 4 * k);
  }

  function Compress(s: State, block: seq<Byte>): State
    requires |block| == 64
  {
    CompressWords(s, BlockWords(block))
  }

  /** The chaining state after all blocks of `data`. */
  function Fold(s: State, data: seq<Byte>): State
    requires |data| % 64 == 0
    decreases |data|
  {
    if data == [] then s else Fold(Compress(s, data[..64]), data[64..])
  }

  function Digest(s: State): (d: seq<Byte>)
    ensures |d| == 16
  {
    StoreLe(s.a) + StoreLe(s.b) + StoreLe(s.c) + StoreLe(s.d)
  }

  /** The chaining state whose little-endian words are the sixteen bytes of `d`. */
  function StateOfDigest(d: seq<Byte>): State
    requires |d| == 16
  {
    State(LoadLe(d[..4], 0), LoadLe(d[4..8], 0), LoadLe(d[8..12], 0), LoadLe(d[12..], 0))
  }

  lemma DigestParts(s: State)
    ensures Digest(s)[..4] == StoreLe(s.a) && Digest(s)[4..8] == StoreLe(s.b)
    ensures Digest(s)[8..12] == StoreLe(s.c) && Digest(s)[12..] == StoreLe(s.d)
  {
    hide StoreLe;
  }

  lemma StateFromDigest(s: State)
    ensures StateOfDigest(Digest(s)) == s
  {
    hide StoreLe, LoadLe, Digest;
    DigestParts(s);
    LoadOfStore(s.a);
    LoadOfStore(s.b);
    LoadOfStore(s.c);
    LoadOfStore(s.d);
  }

  lemma DigestOfState(d: seq<Byte>)
    requires |d| == 16
    ensures Digest(StateOfDigest(d)) == d
  {
    hide StoreLe, LoadLe;
    StoreOfLoad(d[..4], 0);
    StoreOfLoad(d[4..8], 0);
    StoreOfLoad(d[8..12], 0);
    StoreOfLoad(d[12..], 0);
  }

  /** Serialisation is a bijection: any sixteen bytes are the digest of exactly one chaining state. */
  lemma DigestBijection(s: State, d: seq<Byte>)
    requires |d| == 16
    ensures Digest(s) == d <==> s == StateOfDigest(d)
  {
    hide Digest, StateOfDigest;
    StateFromDigest(s);
    DigestOfState(d);
  }

  /** The sixteen digest bytes determine the chaining state. */
  lemma DigestInjective(s: State, t: State)
    requires Digest(s) == Digest(t)
    ensures s == t
  {
    hide Digest, StateOfDigest;
    DigestBijection(s, Digest(t));
    DigestBijection(t, Digest(t));
  }

  // ---- Padding, sections 3.1 and 3.2 ----

  const TWO64: nat := 0x1_0000_0000_0000_0000

  function Zeros(n: nat): (z: seq<Byte>)
    ensures |z| == n
  {
    seq(n, _ => 0 as Byte)
  }

  /** The low `n` bytes of `v`, least significant first. */
  function LeBytes(v: nat, n: nat): (b: seq<Byte>)
    ensures |b| == n
    decreases n
  {
    if n == 0 then [] else [ByteValues.ToByte(v % 256)] + LeBytes(v / 256, n - 1)
  }

  /** The low 64 bits of the length in bits of `count` bytes. */
  function BitLength(count: nat): (b: seq<Byte>)
    ensures |b| == 8
  {
    LeBytes(8 * count % TWO64, 8)
  }

  /** How many zero bytes follow 0x80 after `n` message bytes. */
  function ZeroCount(n: nat): nat {
    (119 - n % 64) % 64
  }

  /** What follows the complete blocks of a message of `count` bytes whose incomplete block is `tail`. */
  function FinalBlocks(count: nat, tail: seq<Byte>): seq<Byte> {
    tail + [0x80] + Zeros(ZeroCount(|tail|)) + BitLength(count)
  }

  /** The padded message. */
  function Pad(msg: seq<Byte>): seq<Byte> {
    FinalBlocks(|msg|, msg)
  }

  lemma ZeroCountValue(n: nat)
    ensures ZeroCount(n) == if n % 64 <= 55 then 55 - n % 64 else 119 - n % 64
  {
    var r := n % 64;
    assert r <= 55 ==> 119 - r == 64 + (55 - r);
  }

  lemma ZeroCountAligns(n: nat)
    ensures (n + 9 + ZeroCount(n)) % 64 == 0
  {
    hide ZeroCount;
    ZeroCountValue(n);
    var q, r := n / 64, n % 64;
    assert n == 64 * q + r;
    if r <= 55 {
      assert n + 9 + ZeroCount(n) == 64 * (q + 1);
    } else {
      assert n + 9 + ZeroCount(n) == 64 * (q + 2);
    }
  }

  /** Only the incomplete block decides how many zeros follow. */
  lemma ZeroCountSkips(n: nat, full: nat)
    requires full <= n && full % 64 == 0
    ensures ZeroCount(n - full) == ZeroCount(n)
  {
    assert (n - full) % 64 == n % 64;
  }

  lemma PaddedLength(count: nat, tail: seq<Byte>)
    ensures |FinalBlocks(count, tail)| == |tail| + 9 + ZeroCount(|tail|)
    ensures |FinalBlocks(count, tail)| % 64 == 0
  {
    hide ZeroCount, BitLength;
    ZeroCountAligns(|tail|);
    assert |FinalBlocks(count, tail)| == |tail| + 9 + ZeroCount(|tail|);
  }

  function Md5(msg: seq<Byte>): (d: seq<Byte>)
    ensures |d| == 16
  {
    PaddedLength(|msg|, msg);
    Digest(Fold(IV, Pad(msg)))
  }

  /** What a kernel needs to know about `Compress`: where the steps begin and what is added at the end. */
  lemma CompressFrame(s: State, block: seq<Byte>)
    requires |block| == 64
    ensures var m := BlockWords(block);
            Steps(s, m, 0) == s && Compress(s, block) == Sum(s, Steps(s, m, 64))
  {
    hide Step, LoadLe, Sum;
  }

  lemma SumWords(s: State, t: State)
    ensures Sum(s, t).Words() == [Add(s.a, t.a), Add(s.b, t.b), Add(s.c, t.c), Add(s.d, t.d)]
  {
    hide Add;
  }

  // ---- The tables against the formulas of section 3.4 ----

  lemma MessageOrderF(i: nat)
    requires i < 16
    ensures MSG(i) == i
  {
  }

  lemma MessageOrderG(i: nat)
    requires 16 <= i < 32
    ensures MSG(i) == (5 * i + 1) % 16
  {
  }

  lemma MessageOrderH(i: nat)
    requires 32 <= i < 48
    ensures MSG(i) == (3 * i + 5) % 16
  {
  }

  lemma MessageOrderI(i: nat)
    requires 48 <= i < 64
    ensures MSG(i) == 7 * i % 16
  {
  }

  lemma MessageOrder(i: nat)
    requires i < 64
    ensures MSG(i) == match i / 16 case 0 => i case 1 => (5 * i + 1) % 16 case 2 => (3 * i + 5) % 16 case _ => 7 * i % 16
  {
    hide MSG;
    if i < 16 { MessageOrderF(i); }
    else if i < 32 { MessageOrderG(i); }
    else if i < 48 { MessageOrderH(i); }
    else { MessageOrderI(i); }
  }

  lemma RotationOrder(i: nat)
    requires i < 64
    ensures S(i) == [[7, 12, 17, 22], [5, 9, 14, 20], [4, 11, 16, 23], [6, 10, 15, 21]][i / 16][i % 4]
  {
  }
}
