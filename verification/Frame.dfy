/** Final-block construction and one-shot framing, `src/frame.rs`. */
module Frame {
  import opened Words
  import opened Rfc1321
  import opened Kernels
  import ByteValues

  /** How many of `n` message bytes are in complete blocks. */
  function Complete(n: nat): (full: nat)
    ensures full <= n < full + 64 && full % 64 == 0
  {
    n / 64 * 64
  }

  // ---- What the padding means ----

  /** 0x80 and `k < 64` zeros leave room for exactly the eight length bytes for one k only, the one used here. */
  lemma ZerosAreMinimal(n: nat, k: nat)
    ensures k < 64 && (n + 1 + k) % 64 == 56 <==> k == ZeroCount(n)
  {
    hide ZeroCount;
    ZeroCountValue(n);
    var q, r := n / 64, n % 64;
    assert n + 1 + k == q * 64 + (r + 1 + k) == (q + 1) * 64 + (r + 1 + k - 64);
    if r + 1 + k < 64 {
      ResidueOf(q, r + 1 + k, 64);
    } else if k < 64 {
      ResidueOf(q + 1, r + 1 + k - 64, 64);
    }
  }

  /** Complete blocks followed by the final blocks of the rest are the padded message: nothing is lost or repeated. */
  lemma PadSplits(msg: seq<Byte>, full: nat)
    requires full <= |msg| && full % 64 == 0
    ensures Pad(msg) == msg[..full] + FinalBlocks(|msg|, msg[full..])
  {
    hide BitLength, ZeroCount;
    ZeroCountSkips(|msg|, full);
    assert msg == msg[..full] + msg[full..];
  }

  /** The padded message starts with the complete blocks and is whole blocks itself. */
  lemma PadStart(msg: seq<Byte>, full: nat)
    requires full <= |msg| && full % 64 == 0
    ensures |Pad(msg)| >= full && |Pad(msg)| % 64 == 0 && Pad(msg)[..full] == msg[..full]
  {
    hide Pad, FinalBlocks;
    PadSplits(msg, full);
    PadLength(msg);
  }

  lemma PadLength(msg: seq<Byte>)
    ensures |Pad(msg)| == |msg| + 9 + ZeroCount(|msg|) && |Pad(msg)| % 64 == 0
  {
    hide FinalBlocks;
    PaddedLength(|msg|, msg);
  }

  lemma Md5Splits(msg: seq<Byte>, full: nat)
    requires full <= |msg| && full % 64 == 0
    ensures |FinalBlocks(|msg|, msg[full..])| % 64 == 0
    ensures Md5(msg) == Digest(Fold(Fold(IV, msg[..full]), FinalBlocks(|msg|, msg[full..])))
  {
    hide Digest, Fold;
    PadSplits(msg, full);
    PaddedLength(|msg|, msg[full..]);
    FoldAppend(IV, msg[..full], FinalBlocks(|msg|, msg[full..]));
  }

  function Pow256(n: nat): (p: nat)
    ensures p > 0
  {
    if n == 0 then 1 else 256 * Pow256(n - 1)
  }

  lemma {:induction false} LeBytesInjective(u: nat, v: nat, n: nat)
    requires u < Pow256(n) && v < Pow256(n) && LeBytes(u, n) == LeBytes(v, n)
    ensures u == v
    decreases n
  {
    hide ByteValues.ToByte;
    if n != 0 {
      var x, y := LeBytes(u, n), LeBytes(v, n);
      assert x[0] == ByteValues.ToByte(u % 256) && y[0] == ByteValues.ToByte(v % 256);
      ByteValues.ToByteInjective(u % 256, v % 256);
      assert x[1..] == LeBytes(u / 256, n - 1) && y[1..] == LeBytes(v / 256, n - 1);
      LeBytesInjective(u / 256, v / 256, n - 1);
    }
  }

  lemma Pow256Of8()
    ensures Pow256(8) == TWO64
  {
  }

  lemma ResidueOf(q: nat, r: nat, m: nat)
    requires r < m
    ensures (q * m + r) / m == q && (q * m + r) % m == r
  {
    var x := q * m + r;
    var k := x / m - q;
    assert x == x / m * m + x % m;
    assert k * m == r - x % m;
    assert 0 < m + k * m < 2 * m;
    assert k == 0;
  }

  lemma ScaledResidue(x: nat)
    ensures 8 * x % TWO64 == 8 * (x % 0x2000_0000_0000_0000)
  {
    var m := 0x2000_0000_0000_0000;
    var q, r := x / m, x % m;
    assert x == q * m + r;
    assert 8 * x == q * (8 * m) + 8 * r;
    ResidueOf(q, 8 * r, 8 * m);
  }

  lemma DivideTwice(v: nat, p: nat)
    requires p > 0
    ensures v / 256 / p == v / (256 * p)
  {
    var a, r := v / 256, v % 256;
    var q, s := a / p, a % p;
    assert a == q * p + s && v == 256 * a + r;
    assert v == q * (256 * p) + (256 * s + r);
    ResidueOf(q, 256 * s + r, 256 * p);
  }

  lemma {:induction false} LeByteAt(v: nat, n: nat, i: nat)
    requires i < n
    ensures LeBytes(v, n)[i] as nat == v / Pow256(i) % 256
    decreases n
  {
    hide ByteValues.ToByte;
    if i == 0 {
      ByteValues.ToByteValue(v % 256);
    } else {
      LeByteAt(v / 256, n - 1, i - 1);
      DivideTwice(v, Pow256(i - 1));
    }
  }

  /** The length field is the bit count modulo 2^64, least significant byte first. */
  lemma LengthField(count: nat)
    ensures var v, b := 8 * count % 0x1_0000_0000_0000_0000, BitLength(count);
            && b[0] as nat == v % 0x100 && b[1] as nat == v / 0x100 % 0x100
            && b[2] as nat == v / 0x1_0000 % 0x100 && b[3] as nat == v / 0x100_0000 % 0x100
            && b[4] as nat == v / 0x1_0000_0000 % 0x100 && b[5] as nat == v / 0x100_0000_0000 % 0x100
            && b[6] as nat == v / 0x1_0000_0000_0000 % 0x100 && b[7] as nat == v / 0x100_0000_0000_0000 % 0x100
  {
    hide LeBytes;
    var v := 8 * count % TWO64;
    assert Pow256(0) == 1 && Pow256(1) == 0x100 && Pow256(2) == 0x1_0000 && Pow256(3) == 0x100_0000;
    assert Pow256(4) == 0x1_0000_0000 && Pow256(5) == 0x100_0000_0000;
    assert Pow256(6) == 0x1_0000_0000_0000 && Pow256(7) == 0x100_0000_0000_0000;
    LeByteAt(v, 8, 0); LeByteAt(v, 8, 1); LeByteAt(v, 8, 2); LeByteAt(v, 8, 3);
    LeByteAt(v, 8, 4); LeByteAt(v, 8, 5); LeByteAt(v, 8, 6); LeByteAt(v, 8, 7);
  }

  /** What stands where in the final blocks, byte by byte. */
  lemma FinalBlocksLayout(count: nat, tail: seq<Byte>)
    requires |tail| < 64
    ensures var p := FinalBlocks(count, tail);
            && |p| == (if |tail| <= 55 then 64 else 128)
            && p[..|tail|] == tail && p[|tail|] == 0x80
            && (forall i :: |tail| < i < |p| - 8 ==> p[i] == 0)
            && p[|p| - 8..] == BitLength(count)
  {
    hide BitLength, ZeroCount;
    ZeroCountValue(|tail|);
  }

  /** The encoded length identifies the byte count modulo 2^61, and nothing more. */
  lemma BitLengthMeaning(x: nat, y: nat)
    ensures BitLength(x) == BitLength(y) <==> x % 0x2000_0000_0000_0000 == y % 0x2000_0000_0000_0000
  {
    hide LeBytes, Pow256;
    Pow256Of8();
    ScaledResidue(x);
    ScaledResidue(y);
    var u, v := 8 * x % TWO64, 8 * y % TWO64;
    if LeBytes(u, 8) == LeBytes(v, 8) {
      LeBytesInjective(u, v, 8);
    }
  }

  lemma ZeroCountBound(n: nat)
    ensures ZeroCount(n) < 64
  {
  }

  /** Lengths that agree modulo 2^61 and differ by less than a block are equal. */
  lemma NearbyCongruent(x: nat, y: nat)
    requires x % 0x2000_0000_0000_0000 == y % 0x2000_0000_0000_0000 && x < y + 64 && y < x + 64
    ensures x == y
  {
    var m := 0x2000_0000_0000_0000;
    assert x == x / m * m + x % m && y == y / m * m + y % m;
  }

  /** The padded message determines the message, for messages of every length. */
  lemma PadInjective(x: seq<Byte>, y: seq<Byte>)
    requires Pad(x) == Pad(y)
    ensures x == y
  {
    hide BitLength, ZeroCount;
    var p := Pad(x);
    assert p[|p| - 8..] == BitLength(|x|) && p[|p| - 8..] == BitLength(|y|);
    BitLengthMeaning(|x|, |y|);
    PaddedLength(|x|, x);
    PaddedLength(|y|, y);
    ZeroCountBound(|x|);
    ZeroCountBound(|y|);
    NearbyCongruent(|x|, |y|);
    assert p[..|x|] == x && p[..|y|] == y;
  }

  // ---- The builder ----

  /**
   `build_final_blocks`: writes the one or two blocks that end a message of `total` bytes whose incomplete
   block is `tail`. With one block the second buffer is not touched.
   */
  method BuildFinalBlocks(total: nat, tail: seq<Byte>, block0: array<Byte>, block1: array<Byte>) returns (used: nat)
    requires |tail| < 64 && block0.Length == 64 && block1.Length == 64 && block0 != block1
    modifies block0, block1
    ensures used == if |tail| <= 55 then 1 else 2
    ensures used == 1 ==> block0[..] == FinalBlocks(total, tail) && block1[..] == old(block1[..])
    ensures used == 2 ==> block0[..] + block1[..] == FinalBlocks(total, tail)
  {
    hide BitLength;
    var bitLen := BitLength(total);
    forall i | 0 <= i < 64 { block0[i] := 0; }
    if |tail| <= 55 {
      forall i | 0 <= i < |tail| { block0[i] := tail[i]; }
      block0[|tail|] := 0x80;
      forall i | 0 <= i < 8 { block0[56 + i] := bitLen[i]; }
      used := 1;
    } else {
      forall i | 0 <= i < 64 { block1[i] := 0; }
      forall i | 0 <= i < |tail| { block0[i] := tail[i]; }
      block0[|tail|] := 0x80;
      forall i | 0 <= i < 8 { block1[56 + i] := bitLen[i]; }
      used := 2;
    }
  }

  /** `blocks` are the 64-byte blocks of `p` from `full` to its end. */
  predicate BlocksFrom(blocks: seq<seq<Byte>>, p: seq<Byte>, full: nat) {
    && |p| == full + 64 * |blocks|
    && forall i :: 0 <= i < |blocks| ==> |blocks[i]| == 64 && blocks[i] == p[full + 64 * i..full + 64 * i + 64]
  }

  /** The final blocks of a message that is hashed from its start. */
  method FinalBlockList(msg: seq<Byte>) returns (blocks: seq<seq<Byte>>)
    ensures BlocksFrom(blocks, Pad(msg), Complete(|msg|))
  {
    hide FinalBlocks;
    var full := Complete(|msg|);
    var block0, block1 := new Byte[64], new Byte[64];
    var used := BuildFinalBlocks(|msg|, msg[full..], block0, block1);
    PadSplits(msg, full);
    blocks := if used == 1 then [block0[..]] else [block0[..], block1[..]];
  }

  /** The loop over the final blocks in use. */
  method CompressUsed(kernel: Kernel, st: array<Word>, block0: seq<Byte>, block1: seq<Byte>, used: nat)
    requires st.Length == 4 && |block0| == |block1| == 64 && 1 <= used <= 2
    modifies st
    ensures StateOf(st[..]) == Fold(old(StateOf(st[..])), if used == 1 then block0 else block0 + block1)
  {
    hide Fold, Compress, StateOf;
    ghost var start := StateOf(st[..]);
    CompressBlock(kernel, st, block0);
    FoldOne(start, block0);
    if used == 2 {
      CompressBlock(kernel, st, block1);
      FoldOne(Fold(start, block0), block1);
      FoldAppend(start, block0, block1);
    }
  }

  /** `finalize_with`: a digest from a chaining state, a byte count and an incomplete block. */
  method FinalizeWith(kernel: Kernel, state: State, total: nat, tail: seq<Byte>) returns (d: seq<Byte>)
    requires |tail| < 64
    ensures |FinalBlocks(total, tail)| % 64 == 0
    ensures d == Digest(Fold(state, FinalBlocks(total, tail)))
  {
    hide Fold, Compress, Digest, FinalBlocks;
    PaddedLength(total, tail);
    var st := new Word[4];
    st[0], st[1], st[2], st[3] := state.a, state.b, state.c, state.d;
    var block0, block1 := new Byte[64], new Byte[64];
    var used := BuildFinalBlocks(total, tail, block0, block1);
    CompressUsed(kernel, st, block0[..], block1[..], used);
    d := StateToBytes(st);
  }

  /** `state_to_bytes`. */
  method StateToBytes(state: array<Word>) returns (out: seq<Byte>)
    requires state.Length == 4
    ensures out == Digest(StateOf(state[..]))
  {
    out := StoreLe(state[0]) + StoreLe(state[1]) + StoreLe(state[2]) + StoreLe(state[3]);
  }

  /** `hash_with`: the empty message goes straight to its padding block; otherwise complete blocks, then the rest. */
  method HashWith(kernel: Kernel, input: seq<Byte>) returns (d: seq<Byte>)
    ensures d == Md5(input)
  {
    hide Fold, Digest, FinalBlocks, Md5;
    if |input| == 0 {
      Md5Splits(input, 0);
      FoldNothing(IV);
      d := FinalizeWith(kernel, IV, 0, []);
      return;
    }
    var full := Complete(|input|);
    Md5Splits(input, full);
    var state := new Word[4];
    state[0], state[1], state[2], state[3] := IV.a, IV.b, IV.c, IV.d;
    CompressChunks(kernel, state, input[..full]);
    d := FinalizeWith(kernel, StateOf(state[..]), |input|, input[full..]);
  }
}
