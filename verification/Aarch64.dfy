/**
 The AArch64 kernel of `src/simd/single_aarch.rs`: message words are loaded where they are used, message
 order and rotation amounts are written out instead of read from tables, and rotations are `ror(32 - r)`.
 */
module Aarch64 {
  import opened Words
  import opened Consts
  import opened Rfc1321

  /** The on-demand load `mi`: word `i` of the block. */
  function MessageWord(block: seq<Byte>, i: nat): Word
    requires |block| == 64 && i < 16
  {
    LoadLe(block, 4 * i)
  }

  /** `ror(x, 32 - r)` after adding the word before the constant is the RFC step. */
  lemma RorStep(r: State, w: Word, i: nat)
    requires i < 64
    ensures Add(Ror(Add(Add(Add(r.a, Mix(i, r.b, r.c, r.d)), w), K(i)), 32 - S(i)), r.b) == StepWord(r, w, i)
  {
    hide Add, Ror, Rotl, K, S, Mix;
    var mix := Mix(i, r.b, r.c, r.d);
    AddAssoc(Add(r.a, mix), w, K(i));
    AddComm(w, K(i));
    AddAssoc(Add(r.a, mix), K(i), w);
    var sum := Add(Add(Add(r.a, mix), K(i)), w);
    RotationsAgree(sum, S(i));
    AddComm(r.b, Rotl(sum, S(i)));
  }

  /** The round macro `f!`: F as `d ^ (b & (c ^ d))`. `mw`, `kw` and `r` are the operands the call site writes out. */
  method MacroF(a: Word, b: Word, c: Word, d: Word, mw: Word, kw: Word, r: Amount,
                ghost i: nat, ghost start: State, ghost block: seq<Byte>)
    returns (a': Word)
    requires |block| == 64 && 0 <= i < 16
    requires mw == MessageWord(block, MSG(i)) && kw == K(i) && r == S(i)
    requires State(a, b, c, d) == Steps(start, BlockWords(block), i)
    ensures State(d, a', b, c) == Steps(start, BlockWords(block), i + 1)
  {
    hide Add, Rotl, Ror, K, S, MSG, LoadLe, BitXor, BitAnd, BitOr, BitNot, F, G, H, I, StepWord;
    FByMask(b, c, d);
    RorStep(State(a, b, c, d), mw, i);
    a' := Add(Add(Add(a, BitXor(d, BitAnd(b, BitXor(c, d)))), mw), kw);
    a' := Add(Ror(a', 32 - r), b);
  }

  /** The round macro `g!`: G as a sum of two disjoint masks. `mw`, `kw` and `r` are the operands the call site writes out. */
  method MacroG(a: Word, b: Word, c: Word, d: Word, mw: Word, kw: Word, r: Amount,
                ghost i: nat, ghost start: State, ghost block: seq<Byte>)
    returns (a': Word)
    requires |block| == 64 && 16 <= i < 32
    requires mw == MessageWord(block, MSG(i)) && kw == K(i) && r == S(i)
    requires State(a, b, c, d) == Steps(start, BlockWords(block), i)
    ensures State(d, a', b, c) == Steps(start, BlockWords(block), i + 1)
  {
    hide Add, Rotl, Ror, K, S, MSG, LoadLe, BitXor, BitAnd, BitOr, BitNot, F, G, H, I, StepWord;
    GBySum(b, c, d);
    RorStep(State(a, b, c, d), mw, i);
    a' := Add(Add(Add(a, Add(BitAnd(BitNot(d), c), BitAnd(d, b))), mw), kw);
    a' := Add(Ror(a', 32 - r), b);
  }

  /** The round macro `h!`. `mw`, `kw` and `r` are the operands the call site writes out. */
  method MacroH(a: Word, b: Word, c: Word, d: Word, mw: Word, kw: Word, r: Amount,
                ghost i: nat, ghost start: State, ghost block: seq<Byte>)
    returns (a': Word)
    requires |block| == 64 && 32 <= i < 48
    requires mw == MessageWord(block, MSG(i)) && kw == K(i) && r == S(i)
    requires State(a, b, c, d) == Steps(start, BlockWords(block), i)
    ensures State(d, a', b, c) == Steps(start, BlockWords(block), i + 1)
  {
    hide Add, Rotl, Ror, K, S, MSG, LoadLe, BitXor, BitAnd, BitOr, BitNot, F, G, H, I, StepWord;
    HByXor(b, c, d);
    RorStep(State(a, b, c, d), mw, i);
    a' := Add(Add(Add(a, BitXor(BitXor(b, c), d)), mw), kw);
    a' := Add(Ror(a', 32 - r), b);
  }

  /** The round macro `i!`: I with or-not. `mw`, `kw` and `r` are the operands the call site writes out. */
  method MacroI(a: Word, b: Word, c: Word, d: Word, mw: Word, kw: Word, r: Amount,
                ghost i: nat, ghost start: State, ghost block: seq<Byte>)
    returns (a': Word)
    requires |block| == 64 && 48 <= i < 64
    requires mw == MessageWord(block, MSG(i)) && kw == K(i) && r == S(i)
    requires State(a, b, c, d) == Steps(start, BlockWords(block), i)
    ensures State(d, a', b, c) == Steps(start, BlockWords(block), i + 1)
  {
    hide Add, Rotl, Ror, K, S, MSG, LoadLe, BitXor, BitAnd, BitOr, BitNot, F, G, H, I, StepWord;
    IByOr(b, c, d);
    RorStep(State(a, b, c, d), mw, i);
    a' := Add(Add(Add(a, BitXor(c, BitOr(b, BitNot(d)))), mw), kw);
    a' := Add(Ror(a', 32 - r), b);
  }

  /** Steps 0 to 15 as the kernel lists them. */
  method RoundF(a0: Word, b0: Word, c0: Word, d0: Word, block: seq<Byte>, ghost start: State)
    returns (a: Word, b: Word, c: Word, d: Word)
    requires |block| == 64
    requires State(a0, b0, c0, d0) == Steps(start, BlockWords(block), 0)
    ensures State(a, b, c, d) == Steps(start, BlockWords(block), 16)
  {
    hide MSG, S, MessageWord, K, Steps, BlockWords;
    RowF();
    a, b, c, d := a0, b0, c0, d0;
    a := MacroF(a, b, c, d, MessageWord(block, 0), K(0), 7, 0, start, block);
    d := MacroF(d, a, b, c, MessageWord(block, 1), K(1), 12, 1, start, block);
    c := MacroF(c, d, a, b, MessageWord(block, 2), K(2), 17, 2, start, block);
    b := MacroF(b, c, d, a, MessageWord(block, 3), K(3), 22, 3, start, block);
    a := MacroF(a, b, c, d, MessageWord(block, 4), K(4), 7, 4, start, block);
    d := MacroF(d, a, b, c, MessageWord(block, 5), K(5), 12, 5, start, block);
    c := MacroF(c, d, a, b, MessageWord(block, 6), K(6), 17, 6, start, block);
    b := MacroF(b, c, d, a, MessageWord(block, 7), K(7), 22, 7, start, block);
    a := MacroF(a, b, c, d, MessageWord(block, 8), K(8), 7, 8, start, block);
    d := MacroF(d, a, b, c, MessageWord(block, 9), K(9), 12, 9, start, block);
    c := MacroF(c, d, a, b, MessageWord(block, 10), K(10), 17, 10, start, block);
    b := MacroF(b, c, d, a, MessageWord(block, 11), K(11), 22, 11, start, block);
    a := MacroF(a, b, c, d, MessageWord(block, 12), K(12), 7, 12, start, block);
    d := MacroF(d, a, b, c, MessageWord(block, 13), K(13), 12, 13, start, block);
    c := MacroF(c, d, a, b, MessageWord(block, 14), K(14), 17, 14, start, block);
    b := MacroF(b, c, d, a, MessageWord(block, 15), K(15), 22, 15, start, block);
  }

  /** Steps 16 to 31 as the kernel lists them. */
  method RoundG(a0: Word, b0: Word, c0: Word, d0: Word, block: seq<Byte>, ghost start: State)
    returns (a: Word, b: Word, c: Word, d: Word)
    requires |block| == 64
    requires State(a0, b0, c0, d0) == Steps(start, BlockWords(block), 16)
    ensures State(a, b, c, d) == Steps(start, BlockWords(block), 32)
  {
    hide MSG, S, MessageWord, K, Steps, BlockWords;
    RowG();
    a, b, c, d := a0, b0, c0, d0;
    a := MacroG(a, b, c, d, MessageWord(block, 1), K(16), 5, 16, start, block);
    d := MacroG(d, a, b, c, MessageWord(block, 6), K(17), 9, 17, start, block);
    c := MacroG(c, d, a, b, MessageWord(block, 11), K(18), 14, 18, start, block);
    b := MacroG(b, c, d, a, MessageWord(block, 0), K(19), 20, 19, start, block);
    a := MacroG(a, b, c, d, MessageWord(block, 5), K(20), 5, 20, start, block);
    d := MacroG(d, a, b, c, MessageWord(block, 10), K(21), 9, 21, start, block);
    c := MacroG(c, d, a, b, MessageWord(block, 15), K(22), 14, 22, start, block);
    b := MacroG(b, c, d, a, MessageWord(block, 4), K(23), 20, 23, start, block);
    a := MacroG(a, b, c, d, MessageWord(block, 9), K(24), 5, 24, start, block);
    d := MacroG(d, a, b, c, MessageWord(block, 14), K(25), 9, 25, start, block);
    c := MacroG(c, d, a, b, MessageWord(block, 3), K(26), 14, 26, start, block);
    b := MacroG(b, c, d, a, MessageWord(block, 8), K(27), 20, 27, start, block);
    a := MacroG(a, b, c, d, MessageWord(block, 13), K(28), 5, 28, start, block);
    d := MacroG(d, a, b, c, MessageWord(block, 2), K(29), 9, 29, start, block);
    c := MacroG(c, d, a, b, MessageWord(block, 7), K(30), 14, 30, start, block);
    b := MacroG(b, c, d, a, MessageWord(block, 12), K(31), 20, 31, start, block);
  }

  /** Steps 32 to 47 as the kernel lists them. */
  method RoundH(a0: Word, b0: Word, c0: Word, d0: Word, block: seq<Byte>, ghost start: State)
    returns (a: Word, b: Word, c: Word, d: Word)
    requires |block| == 64
    requires State(a0, b0, c0, d0) == Steps(start, BlockWords(block), 32)
    ensures State(a, b, c, d) == Steps(start, BlockWords(block), 48)
  {
    hide MSG, S, MessageWord, K, Steps, BlockWords;
    RowH();
    a, b, c, d := a0, b0, c0, d0;
    a := MacroH(a, b, c, d, MessageWord(block, 5), K(32), 4, 32, start, block);
    d := MacroH(d, a, b, c, MessageWord(block, 8), K(33), 11, 33, start, block);
    c := MacroH(c, d, a, b, MessageWord(block, 11), K(34), 16, 34, start, block);
    b := MacroH(b, c, d, a, MessageWord(block, 14), K(35), 23, 35, start, block);
    a := MacroH(a, b, c, d, MessageWord(block, 1), K(36), 4, 36, start, block);
    d := MacroH(d, a, b, c, MessageWord(block, 4), K(37), 11, 37, start, block);
    c := MacroH(c, d, a, b, MessageWord(block, 7), K(38), 16, 38, start, block);
    b := MacroH(b, c, d, a, MessageWord(block, 10), K(39), 23, 39, start, block);
    a := MacroH(a, b, c, d, MessageWord(block, 13), K(40), 4, 40, start, block);
    d := MacroH(d, a, b, c, MessageWord(block, 0), K(41), 11, 41, start, block);
    c := MacroH(c, d, a, b, MessageWord(block, 3), K(42), 16, 42, start, block);
    b := MacroH(b, c, d, a, MessageWord(block, 6), K(43), 23, 43, start, block);
    a := MacroH(a, b, c, d, MessageWord(block, 9), K(44), 4, 44, start, block);
    d := MacroH(d, a, b, c, MessageWord(block, 12), K(45), 11, 45, start, block);
    c := MacroH(c, d, a, b, MessageWord(block, 15), K(46), 16, 46, start, block);
    b := MacroH(b, c, d, a, MessageWord(block, 2), K(47), 23, 47, start, block);
  }

  /** Steps 48 to 63 as the kernel lists them. */
  method RoundI(a0: Word, b0: Word, c0: Word, d0: Word, block: seq<Byte>, ghost start: State)
    returns (a: Word, b: Word, c: Word, d: Word)
    requires |block| == 64
    requires State(a0, b0, c0, d0) == Steps(start, BlockWords(block), 48)
    ensures State(a, b, c, d) == Steps(start, BlockWords(block), 64)
  {
    hide MSG, S, MessageWord, K, Steps, BlockWords;
    RowI();
    a, b, c, d := a0, b0, c0, d0;
    a := MacroI(a, b, c, d, MessageWord(block, 0), K(48), 6, 48, start, block);
    d := MacroI(d, a, b, c, MessageWord(block, 7), K(49), 10, 49, start, block);
    c := MacroI(c, d, a, b, MessageWord(block, 14), K(50), 15, 50, start, block);
    b := MacroI(b, c, d, a, MessageWord(block, 5), K(51), 21, 51, start, block);
    a := MacroI(a, b, c, d, MessageWord(block, 12), K(52), 6, 52, start, block);
    d := MacroI(d, a, b, c, MessageWord(block, 3), K(53), 10, 53, start, block);
    c := MacroI(c, d, a, b, MessageWord(block, 10), K(54), 15, 54, start, block);
    b := MacroI(b, c, d, a, MessageWord(block, 1), K(55), 21, 55, start, block);
    a := MacroI(a, b, c, d, MessageWord(block, 8), K(56), 6, 56, start, block);
    d := MacroI(d, a, b, c, MessageWord(block, 15), K(57), 10, 57, start, block);
    c := MacroI(c, d, a, b, MessageWord(block, 6), K(58), 15, 58, start, block);
    b := MacroI(b, c, d, a, MessageWord(block, 13), K(59), 21, 59, start, block);
    a := MacroI(a, b, c, d, MessageWord(block, 4), K(60), 6, 60, start, block);
    d := MacroI(d, a, b, c, MessageWord(block, 11), K(61), 10, 61, start, block);
    c := MacroI(c, d, a, b, MessageWord(block, 2), K(62), 15, 62, start, block);
    b := MacroI(b, c, d, a, MessageWord(block, 9), K(63), 21, 63, start, block);
  }

  /** `transform`. */
  method Transform(state: array<Word>, block: seq<Byte>)
    requires state.Length == 4 && |block| == 64
    modifies state
    ensures state[..] == Compress(StateOf(old(state[..])), block).Words()
  {
    hide Add, Steps, BlockWords, Compress, Sum, State.Words;
    var a0, b0, c0, d0 := state[0], state[1], state[2], state[3];
    var a, b, c, d := a0, b0, c0, d0;
    ghost var start := State(a0, b0, c0, d0);
    CompressFrame(start, block);
    a, b, c, d := RoundF(a, b, c, d, block, start);
    a, b, c, d := RoundG(a, b, c, d, block, start);
    a, b, c, d := RoundH(a, b, c, d, block, start);
    a, b, c, d := RoundI(a, b, c, d, block, start);
    SumWords(start, State(a, b, c, d));
    state[0] := Add(a0, a);
    state[1] := Add(b0, b);
    state[2] := Add(c0, c);
    state[3] := Add(d0, d);
  }
}
