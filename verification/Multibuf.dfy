/** The scalar pair path of `src/multibuf.rs`: two compressions advanced together, and the loop that pairs neighbours. */
module Multibuf {
  import opened Words
  import opened Rfc1321
  import opened Kernels
  import opened Frame
  import opened Batch
  import Scalar
  import Backend

  /** `pair_path_active`. */
  predicate PairPathActive(build: Build) {
    build.pairInterleave && !build.forcePortable && !build.opt
  }

  lemma ViewStart(v: seq<Word>, m: seq<Word>)
    requires |v| == 4 && |m| == 16
    ensures Scalar.View(v, 0) == Steps(StateOf(v), m, 0)
  {
  }

  /** After a multiple of four steps every register has its own role again. */
  lemma ViewEnd(v: seq<Word>, start: seq<Word>, block: seq<Byte>)
    requires |v| == 4 && |start| == 4 && |block| == 64
    requires Scalar.View(v, 64) == Steps(StateOf(start), BlockWords(block), 64)
    ensures Sum(StateOf(start), StateOf(v)) == Compress(StateOf(start), block)
  {
    hide Steps, BlockWords, Add;
    CompressFrame(StateOf(start), block);
  }

  lemma ViewStep(v: seq<Word>, v': seq<Word>, start: State, m: seq<Word>, step: nat)
    requires |v| == 4 && |v'| == 4 && |m| == 16 && step < 64
    requires Scalar.View(v, step) == Steps(start, m, step)
    requires Scalar.View(v', step + 1) == Step(Scalar.View(v, step), m, step)
    ensures Scalar.View(v', step + 1) == Steps(start, m, step + 1)
  {
    hide Step, Scalar.View;
  }

  /** The closing additions of one lane. */
  method FeedForward(init: seq<Word>, v: array<Word>)
    requires |init| == 4 && v.Length == 4
    modifies v
    ensures StateOf(v[..]) == Sum(StateOf(init), old(StateOf(v[..])))
  {
    hide Add;
    v[0] := Add(init[0], v[0]);
    v[1] := Add(init[1], v[1]);
    v[2] := Add(init[2], v[2]);
    v[3] := Add(init[3], v[3]);
  }

  /** The interleaved loop: step by step, first lane 0, then lane 1. */
  method InterleaveSteps(v0: array<Word>, m0: seq<Word>, v1: array<Word>, m1: seq<Word>)
    requires v0.Length == 4 && v1.Length == 4 && v0 != v1 && |m0| == 16 && |m1| == 16
    modifies v0, v1
    ensures Scalar.View(v0[..], 64) == Steps(old(StateOf(v0[..])), m0, 64)
    ensures Scalar.View(v1[..], 64) == Steps(old(StateOf(v1[..])), m1, 64)
  {
    hide Steps, Step, Scalar.View;
    ghost var start0, start1 := StateOf(v0[..]), StateOf(v1[..]);
    ViewStart(v0[..], m0);
    ViewStart(v1[..], m1);
    for step := 0 to 64
      invariant Scalar.View(v0[..], step) == Steps(start0, m0, step)
      invariant Scalar.View(v1[..], step) == Steps(start1, m1, step)
    {
      ghost var was0, was1 := v0[..], v1[..];
      Scalar.StepDest(v0, m0, step);
      Scalar.StepDest(v1, m1, step);
      ViewStep(was0, v0[..], start0, m0, step);
      ViewStep(was1, v1[..], start1, m1, step);
    }
  }

  method CopyWords(from: array<Word>, to: array<Word>)
    requires from.Length == 4 && to.Length == 4 && from != to
    modifies to
    ensures to[..] == from[..]
  {
    to[0], to[1], to[2], to[3] := from[0], from[1], from[2], from[3];
  }

  /** `compress_pair`: two interleaved compressions are two independent ones. */
  method CompressPair(state0: array<Word>, block0: seq<Byte>, state1: array<Word>, block1: seq<Byte>)
    requires state0.Length == 4 && state1.Length == 4 && state0 != state1
    requires |block0| == 64 && |block1| == 64
    modifies state0, state1
    ensures StateOf(state0[..]) == Compress(old(StateOf(state0[..])), block0)
    ensures StateOf(state1[..]) == Compress(old(StateOf(state1[..])), block1)
  {
    hide Compress, Steps, Sum, BlockWords, Scalar.View;
    var words0 := Scalar.LoadM(block0);
    var words1 := Scalar.LoadM(block1);
    var m0, m1 := words0[..], words1[..];
    var init0, init1 := state0[..], state1[..];
    var v0 := new Word[4](i requires 0 <= i < 4 => init0[i]);
    var v1 := new Word[4](i requires 0 <= i < 4 => init1[i]);
    assert v0[..] == init0 && v1[..] == init1;
    InterleaveSteps(v0, m0, v1, m1);
    ViewEnd(v0[..], init0, block0);
    ViewEnd(v1[..], init1, block1);
    FeedForward(init0, v0);
    FeedForward(init1, v1);
    CopyWords(v0, state0);
    CopyWords(v1, state1);
  }

  /** `hash_pair`: the pair path for messages of one length when it is active, two one-shot hashes otherwise. */
  method HashPair(build: Build, a: seq<Byte>, b: seq<Byte>) returns (da: seq<Byte>, db: seq<Byte>, ghost paired: bool)
    ensures da == Md5(a) && db == Md5(b)
    ensures paired <==> build.pairInterleave && !build.forcePortable && !build.opt && |a| == |b|
  {
    paired := false;
    hide Fold, Compress, Digest, FinalBlocks, Md5;
    if !PairPathActive(build) || |a| != |b| {
      ghost var route;
      da, route := Backend.Hash(build, a);
      db, route := Backend.Hash(build, b);
      return;
    }
    var full := Complete(|a|);
    Md5Splits(a, full);
    Md5Splits(b, full);
    var s0, s1 := new Word[4], new Word[4];
    s0[0], s0[1], s0[2], s0[3] := IV.a, IV.b, IV.c, IV.d;
    s1[0], s1[1], s1[2], s1[3] := IV.a, IV.b, IV.c, IV.d;
    FoldNothing(IV);
    for k := 0 to full / 64
      invariant StateOf(s0[..]) == Fold(IV, a[..64 * k])
      invariant StateOf(s1[..]) == Fold(IV, b[..64 * k])
    {
      FoldNext(IV, a, k);
      FoldNext(IV, b, k);
      CompressPair(s0, a[64 * k..64 * k + 64], s1, b[64 * k..64 * k + 64]);
    }
    PairPadding(s0, a, s1, b);
    da := StateToBytes(s0);
    db := StateToBytes(s1);
    paired := true;
  }

  /** The padding half of `hash_pair`; the block count of the first message serves both. */
  method PairPadding(s0: array<Word>, a: seq<Byte>, s1: array<Word>, b: seq<Byte>)
    requires s0.Length == 4 && s1.Length == 4 && s0 != s1 && |a| == |b|
    requires StateOf(s0[..]) == Fold(IV, a[..Complete(|a|)]) && StateOf(s1[..]) == Fold(IV, b[..Complete(|a|)])
    modifies s0, s1
    ensures Digest(StateOf(s0[..])) == Md5(a) && Digest(StateOf(s1[..])) == Md5(b)
  {
    hide Fold, Compress, FinalBlocks, Digest, Pad, StateOf, ZeroCount;
    ghost var full := Complete(|a|);
    PadStart(a, full);
    PadStart(b, full);
    PadLength(a);
    PadLength(b);
    ghost var p, q := Pad(a), Pad(b);
    var fa := FinalBlockList(a);
    var fb := FinalBlockList(b);
    for i := 0 to |fa|
      invariant StateOf(s0[..]) == Fold(IV, p[..full + 64 * i])
      invariant StateOf(s1[..]) == Fold(IV, q[..full + 64 * i])
    {
      FoldNext(IV, p, full / 64 + i);
      FoldNext(IV, q, full / 64 + i);
      CompressPair(s0, fa[i], s1, fb[i]);
    }
    assert p[..|p|] == p && q[..|q|] == q;
  }

  /** Where the pairs start: neighbours of one length from 64 bytes on, taken from the left. */
  function PairPlan(lens: seq<nat>, i: nat): seq<nat>
    decreases |lens| - i
  {
    if i + 1 >= |lens| then []
    else if lens[i] == lens[i + 1] && lens[i] >= 64 then [i] + PairPlan(lens, i + 2)
    else PairPlan(lens, i + 1)
  }

  ghost function Recorded(paired: bool, i: nat): seq<nat> {
    if paired then [i] else []
  }

  /** Pairs are proper, do not overlap, and come in input order. */
  lemma {:induction false} PairsDisjoint(lens: seq<nat>, i: nat)
    ensures var p := PairPlan(lens, i);
            && (forall k :: 0 <= k < |p| ==> i <= p[k] && p[k] + 1 < |lens| && lens[p[k]] == lens[p[k] + 1] && lens[p[k]] >= 64)
            && (forall j, k :: 0 <= j < k < |p| ==> p[j] + 2 <= p[k])
    decreases |lens| - i
  {
    hide PairPlan;
    PairPlanStep(lens, i);
    if i + 1 < |lens| {
      if lens[i] == lens[i + 1] && lens[i] >= 64 {
        var p, rest := PairPlan(lens, i), PairPlan(lens, i + 2);
        PairsDisjoint(lens, i + 2);
        forall k | 0 < k < |p| ensures p[k] == rest[k - 1] { }
      } else {
        PairsDisjoint(lens, i + 1);
      }
    }
  }

  lemma PairPlanStep(lens: seq<nat>, i: nat)
    ensures i + 1 >= |lens| ==> PairPlan(lens, i) == []
    ensures i + 1 < |lens| && lens[i] == lens[i + 1] && lens[i] >= 64 ==> PairPlan(lens, i) == [i] + PairPlan(lens, i + 2)
    ensures i + 1 < |lens| && !(lens[i] == lens[i + 1] && lens[i] >= 64) ==> PairPlan(lens, i) == PairPlan(lens, i + 1)
  {
  }

  /** `hash_many_dispatch` without SIMD: neighbours of one length from 64 bytes are paired when the pair path is active. */
  method HashManyDispatch(build: Build, inputs: seq<seq<Byte>>, outputs: array<seq<Byte>>)
    returns (outcome: Outcome, ghost pairs: seq<nat>)
    modifies outputs
    ensures outcome == if outputs.Length < |inputs| then Panicked else Returned
    ensures outcome == Panicked ==> outputs[..] == old(outputs[..])
    ensures outcome == Returned ==> Stored(outputs[..], old(outputs[..]), inputs, 0, |inputs|)
    ensures outcome == Returned ==>
              pairs == if build.pairInterleave && !build.forcePortable && !build.opt then PairPlan(Lengths(inputs), 0) else []
  {
    hide Md5, PairPlan, Stored;
    pairs := [];
    if outputs.Length < |inputs| {
      return Panicked, pairs;
    }
    ghost var was, lens := outputs[..], Lengths(inputs);
    NothingStored(was, inputs);
    if !PairPathActive(build) {
      for i := 0 to |inputs|
        invariant outputs.Length == |was| && Stored(outputs[..], was, inputs, 0, i)
      {
        HashSlot(build, inputs, outputs, i, was);
      }
      return Returned, pairs;
    }
    var i := 0;
    while i + 1 < |inputs|
      invariant i <= |inputs| && outputs.Length == |was|
      invariant Stored(outputs[..], was, inputs, 0, i)
      invariant pairs + PairPlan(lens, i) == PairPlan(lens, 0)
    {
      PairPlanStep(lens, i);
      var a, b := inputs[i], inputs[i + 1];
      if |a| == |b| && |a| >= 64 {
        ghost var mid, paired := outputs[..], false;
        var da, db;
        da, db, paired := HashPair(build, a, b);
        StoredSlot(mid, was, inputs, 0, i, da);
        StoredSlot(mid[i := da], was, inputs, 0, i + 1, db);
        outputs[i] := da;
        outputs[i + 1] := db;
        assert outputs[..] == mid[i := da][i + 1 := db];
        pairs := pairs + Recorded(paired, i);
        i := i + 2;
      } else {
        HashSlot(build, inputs, outputs, i, was);
        i := i + 1;
      }
    }
    PairPlanStep(lens, i);
    if i < |inputs| {
      HashSlot(build, inputs, outputs, i, was);
    }
    return Returned, pairs;
  }

  /** One message into its own slot. */
  method HashSlot(build: Build, inputs: seq<seq<Byte>>, outputs: array<seq<Byte>>, i: nat, ghost was: seq<seq<Byte>>)
    requires i < |inputs| <= outputs.Length && Stored(outputs[..], was, inputs, 0, i)
    modifies outputs
    ensures Stored(outputs[..], was, inputs, 0, i + 1)
  {
    hide Md5, Stored;
    ghost var mid := outputs[..];
    var d, route := Backend.Hash(build, inputs[i]);
    StoredSlot(mid, was, inputs, 0, i, d);
    outputs[i] := d;
    assert outputs[..] == mid[i := d];
  }
}
