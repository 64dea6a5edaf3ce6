/** The scalar kernels of `src/compress.rs`, each proved equal to the reference compression. */
module Scalar {
  import opened Words
  import opened Consts
  import opened Rfc1321

  function MixF(x: Word, y: Word, z: Word): Word { z ^ (x & (y ^ z)) }

  function MixG(x: Word, y: Word, z: Word): Word { (x & z) + (y & !z) }

  function MixH(x: Word, y: Word, z: Word): Word { x ^ y ^ z }

  function MixI(x: Word, y: Word, z: Word): Word { y ^ (x | !z) }

  /** The production Boolean expression of step `i`. */
  function FastMix(i: nat, x: Word, y: Word, z: Word): Word {
    if i < 16 then MixF(x, y, z)
    else if i < 32 then MixG(x, y, z)
    else if i < 48 then MixH(x, y, z)
    else MixI(x, y, z)
  }

  lemma MixFIsF(x: Word, y: Word, z: Word)
    ensures MixF(x, y, z) == F(x, y, z)
  {
    SelectByXor(x, y, z);
  }

  lemma MixGIsG(x: Word, y: Word, z: Word)
    ensures MixG(x, y, z) == G(x, y, z)
  {
    SelectByAdd(x, y, z);
  }

  /** The mask and add identities compute the RFC functions on every word, in every round. */
  lemma FastMixIsMix(i: nat, x: Word, y: Word, z: Word)
    ensures FastMix(i, x, y, z) == Mix(i, x, y, z)
  {
    hide MixF, MixG, F, G;
    MixFIsF(x, y, z);
    MixGIsG(x, y, z);
  }

  /** `load_m`: sixteen unaligned little-endian word reads inside the block. */
  method LoadM(block: seq<Byte>) returns (m: array<Word>)
    requires |block| == 64
    ensures fresh(m) && m[..] == BlockWords(block)
  {
    hide LoadLe;
    m := new Word[16];
    var i := 0;
    while i < 16
      invariant 0 <= i <= 16
      invariant forall k :: 0 <= k < i ==> m[k] == LoadLe(block, 4 * k)
    {
      m[i] := LoadLe(block, i * 4);
      i := i + 1;
    }
  }

  // ---- Table-driven steps on a four-word register array ----

  /** The roles of step `i` read from registers that stay in place while DEST cycles. */
  function View(v: seq<Word>, i: nat): State
    requires |v| == 4
  {
    var dest := DEST(i);
    State(v[dest], v[(dest + 1) % 4], v[(dest + 2) % 4], v[(dest + 3) % 4])
  }

  /** Writing the step word into register DEST(i) advances the role tuple by one RFC step. */
  lemma DestStepIsStep(v: seq<Word>, m: seq<Word>, i: nat)
    requires |v| == 4 && |m| == 16 && i < 64
    ensures View(v[DEST(i) := StepWord(View(v, i), m[MSG(i)], i)], i + 1) == Step(View(v, i), m, i)
  {
    hide StepWord, MSG;
    assert i % 4 == 0 || i % 4 == 1 || i % 4 == 2 || i % 4 == 3;
  }

  /** `step_dest`: one production step on the registers `v`, in place. */
  method StepDest(v: array<Word>, m: seq<Word>, step: nat)
    requires v.Length == 4 && |m| == 16 && step < 64
    modifies v
    ensures View(v[..], step + 1) == Step(old(View(v[..], step)), m, step)
  {
    hide FastMix, Mix, Add, Rotl, K, S, MSG;
    var dest := DEST(step);
    var x := v[(dest + 1) % 4];
    var y := v[(dest + 2) % 4];
    var z := v[(dest + 3) % 4];
    ghost var was := v[..];
    FastMixIsMix(step, x, y, z);
    DestStepIsStep(was, m, step);
    v[dest] := Add(x, Rotl(Add(Add(Add(v[dest], FastMix(step, x, y, z)), K(step)), m[MSG(step)]), S(step)));
    assert v[..] == was[dest := StepWord(View(was, step), m[MSG(step)], step)];
  }

  // ---- The unrolled kernels ----

  /** The arithmetic all four macros share. */
  method FastStep(mix: Word, a: Word, b: Word, c: Word, d: Word, m: seq<Word>, k: nat, ghost start: State)
    returns (a': Word)
    requires |m| == 16 && k < 64
    requires mix == FastMix(k, b, c, d)
    requires State(a, b, c, d) == Steps(start, m, k)
    ensures State(d, a', b, c) == Steps(start, m, k + 1)
  {
    hide Add, Rotl, FastMix, Mix, K, S, MSG;
    FastMixIsMix(k, b, c, d);
    a' := Add(b, Rotl(Add(Add(Add(a, mix), K(k)), m[MSG(k)]), S(k)));
  }

  /**
   The step macro of the production kernel, once for each round. `mix` arrives already evaluated, as the
   macro's expression argument does; `start` is the chaining state the 64 steps began from.
   */
  method StepF(mix: Word, a: Word, b: Word, c: Word, d: Word, m: seq<Word>, k: nat, ghost start: State)
    returns (a': Word)
    requires |m| == 16 && 0 <= k < 16
    requires mix == d ^ (b & (c ^ d))
    requires State(a, b, c, d) == Steps(start, m, k)
    ensures State(d, a', b, c) == Steps(start, m, k + 1)
  {
    a' := FastStep(mix, a, b, c, d, m, k, start);
  }

  method StepG(mix: Word, a: Word, b: Word, c: Word, d: Word, m: seq<Word>, k: nat, ghost start: State)
    returns (a': Word)
    requires |m| == 16 && 16 <= k < 32
    requires mix == (b & d) + (c & !d)
    requires State(a, b, c, d) == Steps(start, m, k)
    ensures State(d, a', b, c) == Steps(start, m, k + 1)
  {
    a' := FastStep(mix, a, b, c, d, m, k, start);
  }

  method StepH(mix: Word, a: Word, b: Word, c: Word, d: Word, m: seq<Word>, k: nat, ghost start: State)
    returns (a': Word)
    requires |m| == 16 && 32 <= k < 48
    requires mix == b ^ c ^ d
    requires State(a, b, c, d) == Steps(start, m, k)
    ensures State(d, a', b, c) == Steps(start, m, k + 1)
  {
    a' := FastStep(mix, a, b, c, d, m, k, start);
  }

  method StepI(mix: Word, a: Word, b: Word, c: Word, d: Word, m: seq<Word>, k: nat, ghost start: State)
    returns (a': Word)
    requires |m| == 16 && 48 <= k < 64
    requires mix == c ^ (b | !d)
    requires State(a, b, c, d) == Steps(start, m, k)
    ensures State(d, a', b, c) == Steps(start, m, k + 1)
  {
    a' := FastStep(mix, a, b, c, d, m, k, start);
  }

  method RoundF(a0: Word, b0: Word, c0: Word, d0: Word, m: seq<Word>, ghost start: State)
    returns (a: Word, b: Word, c: Word, d: Word)
    requires |m| == 16
    requires State(a0, b0, c0, d0) == Steps(start, m, 0)
    ensures State(a, b, c, d) == Steps(start, m, 16)
  {
    hide Add, Rotl, K, S, MSG, Steps, FastMix;
    a, b, c, d := a0, b0, c0, d0;
    a := StepF(d ^ (b & (c ^ d)), a, b, c, d, m, 0, start);
    d := StepF(c ^ (a & (b ^ c)), d, a, b, c, m, 1, start);
    c := StepF(b ^ (d & (a ^ b)), c, d, a, b, m, 2, start);
    b := StepF(a ^ (c & (d ^ a)), b, c, d, a, m, 3, start);
    a := StepF(d ^ (b & (c ^ d)), a, b, c, d, m, 4, start);
    d := StepF(c ^ (a & (b ^ c)), d, a, b, c, m, 5, start);
    c := StepF(b ^ (d & (a ^ b)), c, d, a, b, m, 6, start);
    b := StepF(a ^ (c & (d ^ a)), b, c, d, a, m, 7, start);
    a := StepF(d ^ (b & (c ^ d)), a, b, c, d, m, 8, start);
    d := StepF(c ^ (a & (b ^ c)), d, a, b, c, m, 9, start);
    c := StepF(b ^ (d & (a ^ b)), c, d, a, b, m, 10, start);
    b := StepF(a ^ (c & (d ^ a)), b, c, d, a, m, 11, start);
    a := StepF(d ^ (b & (c ^ d)), a, b, c, d, m, 12, start);
    d := StepF(c ^ (a & (b ^ c)), d, a, b, c, m, 13, start);
    c := StepF(b ^ (d & (a ^ b)), c, d, a, b, m, 14, start);
    b := StepF(a ^ (c & (d ^ a)), b, c, d, a, m, 15, start);
  }

  method RoundG(a0: Word, b0: Word, c0: Word, d0: Word, m: seq<Word>, ghost start: State)
    returns (a: Word, b: Word, c: Word, d: Word)
    requires |m| == 16
    requires State(a0, b0, c0, d0) == Steps(start, m, 16)
    ensures State(a, b, c, d) == Steps(start, m, 32)
  {
    hide Add, Rotl, K, S, MSG, Steps, FastMix;
    a, b, c, d := a0, b0, c0, d0;
    a := StepG((b & d) + (c & !d), a, b, c, d, m, 16, start);
    d := StepG((a & c) + (b & !c), d, a, b, c, m, 17, start);
    c := StepG((d & b) + (a & !b), c, d, a, b, m, 18, start);
    b := StepG((c & a) + (d & !a), b, c, d, a, m, 19, start);
    a := StepG((b & d) + (c & !d), a, b, c, d, m, 20, start);
    d := StepG((a & c) + (b & !c), d, a, b, c, m, 21, start);
    c := StepG((d & b) + (a & !b), c, d, a, b, m, 22, start);
    b := StepG((c & a) + (d & !a), b, c, d, a, m, 23, start);
    a := StepG((b & d) + (c & !d), a, b, c, d, m, 24, start);
    d := StepG((a & c) + (b & !c), d, a, b, c, m, 25, start);
    c := StepG((d & b) + (a & !b), c, d, a, b, m, 26, start);
    b := StepG((c & a) + (d & !a), b, c, d, a, m, 27, start);
    a := StepG((b & d) + (c & !d), a, b, c, d, m, 28, start);
    d := StepG((a & c) + (b & !c), d, a, b, c, m, 29, start);
    c := StepG((d & b) + (a & !b), c, d, a, b, m, 30, start);
    b := StepG((c & a) + (d & !a), b, c, d, a, m, 31, start);
  }

  method RoundH(a0: Word, b0: Word, c0: Word, d0: Word, m: seq<Word>, ghost start: State)
    returns (a: Word, b: Word, c: Word, d: Word)
    requires |m| == 16
    requires State(a0, b0, c0, d0) == Steps(start, m, 32)
    ensures State(a, b, c, d) == Steps(start, m, 48)
  {
    hide Add, Rotl, K, S, MSG, Steps, FastMix;
    a, b, c, d := a0, b0, c0, d0;
    a := StepH(b ^ c ^ d, a, b, c, d, m, 32, start);
    d := StepH(a ^ b ^ c, d, a, b, c, m, 33, start);
    c := StepH(d ^ a ^ b, c, d, a, b, m, 34, start);
    b := StepH(c ^ d ^ a, b, c, d, a, m, 35, start);
    a := StepH(b ^ c ^ d, a, b, c, d, m, 36, start);
    d := StepH(a ^ b ^ c, d, a, b, c, m, 37, start);
    c := StepH(d ^ a ^ b, c, d, a, b, m, 38, start);
    b := StepH(c ^ d ^ a, b, c, d, a, m, 39, start);
    a := StepH(b ^ c ^ d, a, b, c, d, m, 40, start);
    d := StepH(a ^ b ^ c, d, a, b, c, m, 41, start);
    c := StepH(d ^ a ^ b, c, d, a, b, m, 42, start);
    b := StepH(c ^ d ^ a, b, c, d, a, m, 43, start);
    a := StepH(b ^ c ^ d, a, b, c, d, m, 44, start);
    d := StepH(a ^ b ^ c, d, a, b, c, m, 45, start);
    c := StepH(d ^ a ^ b, c, d, a, b, m, 46, start);
    b := StepH(c ^ d ^ a, b, c, d, a, m, 47, start);
  }

  method RoundI(a0: Word, b0: Word, c0: Word, d0: Word, m: seq<Word>, ghost start: State)
    returns (a: Word, b: Word, c: Word, d: Word)
    requires |m| == 16
    requires State(a0, b0, c0, d0) == Steps(start, m, 48)
    ensures State(a, b, c, d) == Steps(start, m, 64)
  {
    hide Add, Rotl, K, S, MSG, Steps, FastMix;
    a, b, c, d := a0, b0, c0, d0;
    a := StepI(c ^ (b | !d), a, b, c, d, m, 48, start);
    d := StepI(b ^ (a | !c), d, a, b, c, m, 49, start);
    c := StepI(a ^ (d | !b), c, d, a, b, m, 50, start);
    b := StepI(d ^ (c | !a), b, c, d, a, m, 51, start);
    a := StepI(c ^ (b | !d), a, b, c, d, m, 52, start);
    d := StepI(b ^ (a | !c), d, a, b, c, m, 53, start);
    c := StepI(a ^ (d | !b), c, d, a, b, m, 54, start);
    b := StepI(d ^ (c | !a), b, c, d, a, m, 55, start);
    a := StepI(c ^ (b | !d), a, b, c, d, m, 56, start);
    d := StepI(b ^ (a | !c), d, a, b, c, m, 57, start);
    c := StepI(a ^ (d | !b), c, d, a, b, m, 58, start);
    b := StepI(d ^ (c | !a), b, c, d, a, m, 59, start);
    a := StepI(c ^ (b | !d), a, b, c, d, m, 60, start);
    d := StepI(b ^ (a | !c), d, a, b, c, m, 61, start);
    c := StepI(a ^ (d | !b), c, d, a, b, m, 62, start);
    b := StepI(d ^ (c | !a), b, c, d, a, m, 63, start);
  }

  /** `compress`: 64 unrolled production steps on four locals, round by round, then the feed-forward. */
  method CompressInTree(state: array<Word>, block: seq<Byte>)
    requires state.Length == 4 && |block| == 64
    modifies state
    ensures state[..] == Compress(StateOf(old(state[..])), block).Words()
  {
    hide Add, Steps, BlockWords, Compress, Sum, State.Words;
    var words := LoadM(block);
    var m := words[..];
    var a0, b0, c0, d0 := state[0], state[1], state[2], state[3];
    var a, b, c, d := a0, b0, c0, d0;
    ghost var start := State(a0, b0, c0, d0);
    CompressFrame(start, block);
    a, b, c, d := RoundF(a, b, c, d, m, start);
    a, b, c, d := RoundG(a, b, c, d, m, start);
    a, b, c, d := RoundH(a, b, c, d, m, start);
    a, b, c, d := RoundI(a, b, c, d, m, start);
    SumWords(start, State(a, b, c, d));
    state[0] := Add(a0, a);
    state[1] := Add(b0, b);
    state[2] := Add(c0, c);
    state[3] := Add(d0, d);
  }

  /** The step macro of the textbook kernel; `mix` is one of the nested RFC functions, already applied. */
  method TextbookStep(mix: Word, a: Word, b: Word, c: Word, d: Word, m: seq<Word>, k: nat, ghost start: State)
    returns (a': Word)
    requires |m| == 16 && k < 64
    requires mix == Mix(k, b, c, d)
    requires State(a, b, c, d) == Steps(start, m, k)
    ensures State(d, a', b, c) == Steps(start, m, k + 1)
  {
    hide Add, Rotl, Mix, K, S, MSG;
    a' := Add(b, Rotl(Add(Add(Add(a, mix), K(k)), m[MSG(k)]), S(k)));
  }

  method TextbookRoundF(a0: Word, b0: Word, c0: Word, d0: Word, m: seq<Word>, ghost start: State)
    returns (a: Word, b: Word, c: Word, d: Word)
    requires |m| == 16
    requires State(a0, b0, c0, d0) == Steps(start, m, 0)
    ensures State(a, b, c, d) == Steps(start, m, 16)
  {
    hide Add, Rotl, K, S, MSG, Steps, F, G, H, I;
    a, b, c, d := a0, b0, c0, d0;
    a := TextbookStep(F(b, c, d), a, b, c, d, m, 0, start);
    d := TextbookStep(F(a, b, c), d, a, b, c, m, 1, start);
    c := TextbookStep(F(d, a, b), c, d, a, b, m, 2, start);
    b := TextbookStep(F(c, d, a), b, c, d, a, m, 3, start);
    a := TextbookStep(F(b, c, d), a, b, c, d, m, 4, start);
    d := TextbookStep(F(a, b, c), d, a, b, c, m, 5, start);
    c := TextbookStep(F(d, a, b), c, d, a, b, m, 6, start);
    b := TextbookStep(F(c, d, a), b, c, d, a, m, 7, start);
    a := TextbookStep(F(b, c, d), a, b, c, d, m, 8, start);
    d := TextbookStep(F(a, b, c), d, a, b, c, m, 9, start);
    c := TextbookStep(F(d, a, b), c, d, a, b, m, 10, start);
    b := TextbookStep(F(c, d, a), b, c, d, a, m, 11, start);
    a := TextbookStep(F(b, c, d), a, b, c, d, m, 12, start);
    d := TextbookStep(F(a, b, c), d, a, b, c, m, 13, start);
    c := TextbookStep(F(d, a, b), c, d, a, b, m, 14, start);
    b := TextbookStep(F(c, d, a), b, c, d, a, m, 15, start);
  }

  method TextbookRoundG(a0: Word, b0: Word, c0: Word, d0: Word, m: seq<Word>, ghost start: State)
    returns (a: Word, b: Word, c: Word, d: Word)
    requires |m| == 16
    requires State(a0, b0, c0, d0) == Steps(start, m, 16)
    ensures State(a, b, c, d) == Steps(start, m, 32)
  {
    hide Add, Rotl, K, S, MSG, Steps, F, G, H, I;
    a, b, c, d := a0, b0, c0, d0;
    a := TextbookStep(G(b, c, d), a, b, c, d, m, 16, start);
    d := TextbookStep(G(a, b, c), d, a, b, c, m, 17, start);
    c := TextbookStep(G(d, a, b), c, d, a, b, m, 18, start);
    b := TextbookStep(G(c, d, a), b, c, d, a, m, 19, start);
    a := TextbookStep(G(b, c, d), a, b, c, d, m, 20, start);
    d := TextbookStep(G(a, b, c), d, a, b, c, m, 21, start);
    c := TextbookStep(G(d, a, b), c, d, a, b, m, 22, start);
    b := TextbookStep(G(c, d, a), b, c, d, a, m, 23, start);
    a := TextbookStep(G(b, c, d), a, b, c, d, m, 24, start);
    d := TextbookStep(G(a, b, c), d, a, b, c, m, 25, start);
    c := TextbookStep(G(d, a, b), c, d, a, b, m, 26, start);
    b := TextbookStep(G(c, d, a), b, c, d, a, m, 27, start);
    a := TextbookStep(G(b, c, d), a, b, c, d, m, 28, start);
    d := TextbookStep(G(a, b, c), d, a, b, c, m, 29, start);
    c := TextbookStep(G(d, a, b), c, d, a, b, m, 30, start);
    b := TextbookStep(G(c, d, a), b, c, d, a, m, 31, start);
  }

  method TextbookRoundH(a0: Word, b0: Word, c0: Word, d0: Word, m: seq<Word>, ghost start: State)
    returns (a: Word, b: Word, c: Word, d: Word)
    requires |m| == 16
    requires State(a0, b0, c0, d0) == Steps(start, m, 32)
    ensures State(a, b, c, d) == Steps(start, m, 48)
  {
    hide Add, Rotl, K, S, MSG, Steps, F, G, H, I;
    a, b, c, d := a0, b0, c0, d0;
    a := TextbookStep(H(b, c, d), a, b, c, d, m, 32, start);
    d := TextbookStep(H(a, b, c), d, a, b, c, m, 33, start);
    c := TextbookStep(H(d, a, b), c, d, a, b, m, 34, start);
    b := TextbookStep(H(c, d, a), b, c, d, a, m, 35, start);
    a := TextbookStep(H(b, c, d), a, b, c, d, m, 36, start);
    d := TextbookStep(H(a, b, c), d, a, b, c, m, 37, start);
    c := TextbookStep(H(d, a, b), c, d, a, b, m, 38, start);
    b := TextbookStep(H(c, d, a), b, c, d, a, m, 39, start);
    a := TextbookStep(H(b, c, d), a, b, c, d, m, 40, start);
    d := TextbookStep(H(a, b, c), d, a, b, c, m, 41, start);
    c := TextbookStep(H(d, a, b), c, d, a, b, m, 42, start);
    b := TextbookStep(H(c, d, a), b, c, d, a, m, 43, start);
    a := TextbookStep(H(b, c, d), a, b, c, d, m, 44, start);
    d := TextbookStep(H(a, b, c), d, a, b, c, m, 45, start);
    c := TextbookStep(H(d, a, b), c, d, a, b, m, 46, start);
    b := TextbookStep(H(c, d, a), b, c, d, a, m, 47, start);
  }

  method TextbookRoundI(a0: Word, b0: Word, c0: Word, d0: Word, m: seq<Word>, ghost start: State)
    returns (a: Word, b: Word, c: Word, d: Word)
    requires |m| == 16
    requires State(a0, b0, c0, d0) == Steps(start, m, 48)
    ensures State(a, b, c, d) == Steps(start, m, 64)
  {
    hide Add, Rotl, K, S, MSG, Steps, F, G, H, I;
    a, b, c, d := a0, b0, c0, d0;
    a := TextbookStep(I(b, c, d), a, b, c, d, m, 48, start);
    d := TextbookStep(I(a, b, c), d, a, b, c, m, 49, start);
    c := TextbookStep(I(d, a, b), c, d, a, b, m, 50, start);
    b := TextbookStep(I(c, d, a), b, c, d, a, m, 51, start);
    a := TextbookStep(I(b, c, d), a, b, c, d, m, 52, start);
    d := TextbookStep(I(a, b, c), d, a, b, c, m, 53, start);
    c := TextbookStep(I(d, a, b), c, d, a, b, m, 54, start);
    b := TextbookStep(I(c, d, a), b, c, d, a, m, 55, start);
    a := TextbookStep(I(b, c, d), a, b, c, d, m, 56, start);
    d := TextbookStep(I(a, b, c), d, a, b, c, m, 57, start);
    c := TextbookStep(I(d, a, b), c, d, a, b, m, 58, start);
    b := TextbookStep(I(c, d, a), b, c, d, a, m, 59, start);
    a := TextbookStep(I(b, c, d), a, b, c, d, m, 60, start);
    d := TextbookStep(I(a, b, c), d, a, b, c, m, 61, start);
    c := TextbookStep(I(d, a, b), c, d, a, b, m, 62, start);
    b := TextbookStep(I(c, d, a), b, c, d, a, m, 63, start);
  }

  /** `compress_textbook`: 64 unrolled steps with the RFC Boolean functions. */
  method CompressTextbook(state: array<Word>, block: seq<Byte>)
    requires state.Length == 4 && |block| == 64
    modifies state
    ensures state[..] == Compress(StateOf(old(state[..])), block).Words()
  {
    hide Add, Steps, BlockWords, Compress, Sum, State.Words;
    var words := LoadM(block);
    var m := words[..];
    var a, b, c, d := state[0], state[1], state[2], state[3];
    ghost var start := State(a, b, c, d);
    CompressFrame(start, block);
    a, b, c, d := TextbookRoundF(a, b, c, d, m, start);
    a, b, c, d := TextbookRoundG(a, b, c, d, m, start);
    a, b, c, d := TextbookRoundH(a, b, c, d, m, start);
    a, b, c, d := TextbookRoundI(a, b, c, d, m, start);
    SumWords(start, State(a, b, c, d));
    state[0] := Add(state[0], a);
    state[1] := Add(state[1], b);
    state[2] := Add(state[2], c);
    state[3] := Add(state[3], d);
  }
}
