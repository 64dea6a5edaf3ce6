/** The fused multi-buffer kernel of `src/simd/wide.rs`. */
module Wide {
  import opened Words
  import opened Consts
  import opened Rfc1321
  import opened Kernels
  import opened Gather
  import opened Lanes
  import opened Batch
  import Frame
  import Scalar

  const MAX_GROUPS: nat := 4

  // ---- The step and the two compressors ----

  /** `wide_step_with_k`: one step on four vector registers, with the round constant already broadcast. */
  method WideStepWithK(v: seq<Vec>, m: seq<Vec>, step: nat, kv: Vec, ghost s: seq<Vec>, ghost lanes: nat)
    returns (v': seq<Vec>)
    requires step < 64 && Stepped(v, s, m, lanes, step) && kv == Splat(lanes, K(step))
    ensures Stepped(v', s, m, lanes, step + 1)
  {
    hide Scalar.View, LaneWords, Lane, Splat, K, MSG, S, VAdd, VRotl, VXor, VAnd, VOr, VNot;
    var dest := DEST(step);
    var x := v[(dest + 1) % 4];
    var y := v[(dest + 2) % 4];
    var z := v[(dest + 3) % 4];
    var mix :=
      if step < 16 then VXor(z, VAnd(x, VXor(y, z)))
      else if step < 32 then VXor(y, VAnd(z, VXor(x, y)))
      else if step < 48 then VXor(VXor(x, y), z)
      else VXor(y, VOr(x, VNot(z)));
    var t := VAdd(VAdd(VAdd(v[dest], mix), kv), m[MSG(step)]);
    v' := v[dest := VAdd(x, VRotl(t, S(step)))];
    assert v' == v[DEST(step) := WideWord(v, m, lanes, step)];
    SteppedNext(v, s, m, lanes, step);
  }

  /** `compress_wide`: every lane of `state` is compressed with its own words. */
  method CompressWide(isa: Isa, state: seq<Vec>, m: seq<Vec>) returns (state': seq<Vec>)
    requires Shape(state, isa.Lanes()) && WordShape(m, isa.Lanes())
    ensures Compressed(state', state, m, isa.Lanes())
  {
    hide Stepped, FeedForward, Compressed, K;
    var v := state;
    SteppedStart(state, m, isa.Lanes());
    for step := 0 to 64
      invariant Stepped(v, state, m, isa.Lanes(), step)
    {
      v := WideStepWithK(v, m, step, Splat(isa.Lanes(), K(step)), state, isa.Lanes());
    }
    SteppedEnd(v, state, m, isa.Lanes());
    SteppedShape(v, state, m, isa.Lanes(), 64);
    state' := FeedForward(v, state, isa.Lanes());
  }

  /**
   `compress_groups_interleaved`: the chains of all groups advance together, one step at a time, and share
   each round constant. It computes what `CompressWide` computes for each group on its own.
   */
  method CompressGroupsInterleaved(isa: Isa, states: array<seq<Vec>>, ms: seq<seq<Vec>>, groups: nat)
    requires 2 <= groups <= MAX_GROUPS && states.Length == MAX_GROUPS && |ms| == MAX_GROUPS
    requires forall g :: 0 <= g < groups ==> Shape(states[g], isa.Lanes()) && WordShape(ms[g], isa.Lanes())
    modifies states
    ensures forall g :: 0 <= g < groups ==> Compressed(states[g], old(states[g]), ms[g], isa.Lanes())
    ensures forall g :: groups <= g < MAX_GROUPS ==> states[g] == old(states[g])
  {
    hide Stepped, FeedForward, Compressed, K, Shape, WordShape;
    ghost var start := states[..];
    var vs := new seq<Vec>[MAX_GROUPS](g requires 0 <= g < MAX_GROUPS reads states => states[g]);
    forall g | 0 <= g < groups ensures Stepped(vs[g], start[g], ms[g], isa.Lanes(), 0) {
      SteppedStart(start[g], ms[g], isa.Lanes());
    }
    for step := 0 to 64
      invariant states[..] == start
      invariant forall g :: 0 <= g < groups ==> Stepped(vs[g], start[g], ms[g], isa.Lanes(), step)
    {
      var kv := Splat(isa.Lanes(), K(step));
      for g := 0 to groups
        invariant states[..] == start
        invariant forall h :: 0 <= h < g ==> Stepped(vs[h], start[h], ms[h], isa.Lanes(), step + 1)
        invariant forall h :: g <= h < groups ==> Stepped(vs[h], start[h], ms[h], isa.Lanes(), step)
      {
        vs[g] := WideStepWithK(vs[g], ms[g], step, kv, start[g], isa.Lanes());
      }
    }
    for g := 0 to groups
      invariant forall h :: 0 <= h < groups ==> Stepped(vs[h], start[h], ms[h], isa.Lanes(), 64)
      invariant forall h :: 0 <= h < g ==> Compressed(states[h], start[h], ms[h], isa.Lanes())
      invariant forall h :: g <= h < MAX_GROUPS ==> states[h] == start[h]
    {
      SteppedEnd(vs[g], start[g], ms[g], isa.Lanes());
      SteppedShape(vs[g], start[g], ms[g], isa.Lanes(), 64);
      states[g] := FeedForward(vs[g], states[g], isa.Lanes());
    }
  }

  lemma SteppedShape(v: seq<Vec>, s: seq<Vec>, m: seq<Vec>, lanes: nat, n: nat)
    requires Stepped(v, s, m, lanes, n)
    ensures Shape(v, lanes) && Shape(s, lanes)
  {
    hide Shape, WordShape;
  }

  // ---- Groups of equal-length messages ----

  predicate EqualLengths(inputs: seq<seq<Byte>>) {
    forall i :: 0 <= i < |inputs| ==> |inputs[i]| == |inputs[0]|
  }

  /** `n.div_ceil(lanes)`. */
  function Groups(n: nat, lanes: nat): nat
    requires lanes > 0
  {
    (n + lanes - 1) / lanes
  }

  /** A call the kernel accepts: at least one message, one length, at most MAX_GROUPS groups. */
  predicate Fits(isa: Isa, inputs: seq<seq<Byte>>) {
    |inputs| >= 1 && EqualLengths(inputs) && Groups(|inputs|, isa.Lanes()) <= MAX_GROUPS
  }

  /** The message that lane `j` of group `g` hashes: its own, or the last one when the lane is filler. */
  function LaneInput(inputs: seq<seq<Byte>>, lanes: nat, g: nat, j: nat): (msg: seq<Byte>)
    requires |inputs| >= 1
    ensures EqualLengths(inputs) ==> |msg| == |inputs[0]|
  {
    if g * lanes + j < |inputs| then inputs[g * lanes + j] else inputs[|inputs| - 1]
  }

  /** Every lane of a group state has folded the first `bytes` bytes of its message. */
  predicate GroupAt(st: seq<Vec>, inputs: seq<seq<Byte>>, lanes: nat, g: nat, bytes: nat)
    requires BlockBoundary(inputs, bytes)
  {
    && Shape(st, lanes)
    && forall j :: 0 <= j < lanes ==>
         StateOf(Lane(st, lanes, j)) == Fold(IV, LaneInput(inputs, lanes, g, j)[..bytes])
  }

  /** `bytes` is a block boundary inside every message. */
  predicate BlockBoundary(inputs: seq<seq<Byte>>, bytes: nat) {
    |inputs| >= 1 && EqualLengths(inputs) && bytes <= |inputs[0]| && bytes % 64 == 0
  }

  /** Every lane of `m` holds the block at `start` of its message. */
  predicate WordsAt(m: seq<Vec>, inputs: seq<seq<Byte>>, lanes: nat, g: nat, start: nat)
    requires |inputs| >= 1 && EqualLengths(inputs) && start + 64 <= |inputs[0]|
  {
    && WordShape(m, lanes)
    && forall j :: 0 <= j < lanes ==>
         LaneWords(m, lanes, j) == BlockWords(LaneInput(inputs, lanes, g, j)[start..start + 64])
  }

  /** All groups of the batch, in lockstep. */
  predicate GroupsAt(states: seq<seq<Vec>>, inputs: seq<seq<Byte>>, lanes: nat, groups: nat, bytes: nat)
    requires BlockBoundary(inputs, bytes)
  {
    |states| == MAX_GROUPS && groups <= MAX_GROUPS
    && forall g :: 0 <= g < groups ==> GroupAt(states[g], inputs, lanes, g, bytes)
  }

  lemma GroupStart(st: seq<Vec>, inputs: seq<seq<Byte>>, lanes: nat, g: nat)
    requires BlockBoundary(inputs, 0) && st == IvState(lanes)
    ensures GroupAt(st, inputs, lanes, g, 0)
  {
    forall j | 0 <= j < lanes
      ensures StateOf(Lane(st, lanes, j)) == Fold(IV, LaneInput(inputs, lanes, g, j)[..0])
    {
      FoldNothing(IV);
      assert LaneInput(inputs, lanes, g, j)[..0] == [];
    }
  }

  /** `iv_state`. */
  function IvState(lanes: nat): (s: seq<Vec>)
    ensures Shape(s, lanes)
  {
    [Splat(lanes, IV.a), Splat(lanes, IV.b), Splat(lanes, IV.c), Splat(lanes, IV.d)]
  }

  /** Compressing the blocks at `bytes` advances every lane of the group by one block, filler lanes included. */
  lemma GroupAdvances(st': seq<Vec>, st: seq<Vec>, m: seq<Vec>, inputs: seq<seq<Byte>>, lanes: nat, g: nat, bytes: nat)
    requires BlockBoundary(inputs, bytes) && bytes + 64 <= |inputs[0]|
    requires GroupAt(st, inputs, lanes, g, bytes) && WordsAt(m, inputs, lanes, g, bytes)
    requires Compressed(st', st, m, lanes)
    ensures GroupAt(st', inputs, lanes, g, bytes + 64)
  {
    hide Lane, LaneWords, BlockWords, CompressWords, Fold, LaneInput;
    forall j | 0 <= j < lanes
      ensures StateOf(Lane(st', lanes, j)) == Fold(IV, LaneInput(inputs, lanes, g, j)[..bytes + 64])
    {
      var msg := LaneInput(inputs, lanes, g, j);
      FoldNext(IV, msg, bytes / 64);
    }
  }

  /** Two group states that are at the same block are the same vectors: loop shape leaves no trace. */
  lemma GroupUnique(s: seq<Vec>, t: seq<Vec>, inputs: seq<seq<Byte>>, lanes: nat, g: nat, bytes: nat)
    requires BlockBoundary(inputs, bytes)
    requires GroupAt(s, inputs, lanes, g, bytes) && GroupAt(t, inputs, lanes, g, bytes)
    ensures s == t
  {
    hide Fold, LaneInput;
    forall j | 0 <= j < lanes
      ensures s[0][j] == t[0][j] && s[1][j] == t[1][j] && s[2][j] == t[2][j] && s[3][j] == t[3][j]
    {
      assert StateOf(Lane(s, lanes, j)) == StateOf(Lane(t, lanes, j));
    }
    assert s[0] == t[0] && s[1] == t[1] && s[2] == t[2] && s[3] == t[3];
  }

  lemma GatheredWords(m: seq<Vec>, ptrs: seq<Ptr>, n: nat, inputs: seq<seq<Byte>>, lanes: nat, g: nat, start: nat)
    requires |inputs| >= 1 && EqualLengths(inputs) && start + 64 <= |inputs[0]|
    requires 1 <= n <= lanes && n <= |ptrs| && (forall i :: 0 <= i < n ==> ptrs[i].Readable())
    requires g * lanes + n <= |inputs| && (n == lanes || g * lanes + n == |inputs|)
    requires forall i :: 0 <= i < n ==> ptrs[i].Block() == inputs[g * lanes + i][start..start + 64]
    requires Gathered(m, ptrs, n, lanes)
    ensures WordsAt(m, inputs, lanes, g, start)
  {
    hide BlockWords, Ptr.Block, Ptr.Readable;
    forall j | 0 <= j < lanes
      ensures LaneWords(m, lanes, j) == BlockWords(LaneInput(inputs, lanes, g, j)[start..start + 64])
    {
      assert Source(ptrs, n, j).Block() == LaneInput(inputs, lanes, g, j)[start..start + 64];
      var words := BlockWords(Source(ptrs, n, j).Block());
      assert forall w :: 0 <= w < 16 ==> LaneWords(m, lanes, j)[w] == words[w];
    }
  }

  /** Group `g` is never empty, and only the last one can be short. */
  lemma GroupBounds(isa: Isa, n: nat, g: nat)
    requires g < Groups(n, isa.Lanes())
    ensures g * isa.Lanes() < n
    ensures g + 1 < Groups(n, isa.Lanes()) ==> (g + 1) * isa.Lanes() <= n
    ensures g + 1 == Groups(n, isa.Lanes()) ==> n <= (g + 1) * isa.Lanes()
  {
    match isa
    case Neon4 =>
    case Neon8 =>
    case Avx2 =>
    case Avx512 =>
  }

  /** `gather_groups_at`: the block at `start` for every active group. */
  method GatherGroupsAt(isa: Isa, inputs: seq<seq<Byte>>, start: nat, groups: nat) returns (ms: seq<seq<Vec>>)
    requires Fits(isa, inputs) && groups == Groups(|inputs|, isa.Lanes()) && start + 64 <= |inputs[0]|
    ensures |ms| == MAX_GROUPS
    ensures forall g :: 0 <= g < groups ==> WordsAt(ms[g], inputs, isa.Lanes(), g, start)
  {
    hide WordsAt, Gathered, Groups;
    var lanes, n := isa.Lanes(), |inputs|;
    var buf := new seq<Vec>[MAX_GROUPS](_ => []);
    for g := 0 to groups
      invariant forall h :: 0 <= h < g ==> WordsAt(buf[h], inputs, lanes, h, start)
    {
      GroupBounds(isa, n, g);
      var lo := g * lanes;
      var hi := if lo + lanes < n then lo + lanes else n;
      var ptrs := new Ptr[MAX_LANES](_ => Null);
      for i := 0 to hi - lo
        invariant forall k :: 0 <= k < i ==> ptrs[k] == Ptr(inputs[lo + k], start)
        invariant forall h :: 0 <= h < g ==> WordsAt(buf[h], inputs, lanes, h, start)
      {
        ptrs[i] := Ptr(inputs[lo + i], start);
      }
      var m := GatherBlock(isa, ptrs[..], hi - lo);
      GatheredWords(m, ptrs[..], hi - lo, inputs, lanes, g, start);
      buf[g] := m;
    }
    ms := buf[..];
  }

  // ---- The three main loops ----

  /** Which main loop a call ran; below 64 bytes there is no complete block and no loop. */
  datatype MainLoop = NoLoop | SingleLoop | PipelineLoop | GroupwiseLoop

  /** The single-group loop. */
  method SingleGroupLoop(isa: Isa, inputs: seq<seq<Byte>>, states: array<seq<Vec>>) returns (ghost loop: MainLoop)
    requires Fits(isa, inputs) && Groups(|inputs|, isa.Lanes()) == 1 && |inputs[0]| >= 64
    requires states.Length == MAX_GROUPS && GroupAt(states[0], inputs, isa.Lanes(), 0, 0)
    modifies states
    ensures loop == SingleLoop
    ensures GroupsAt(states[..], inputs, isa.Lanes(), 1, Frame.Complete(|inputs[0]|))
  {
    hide GroupAt, WordsAt, Gathered, Compressed;
    loop := SingleLoop;
    var n, lanes, nfull := |inputs|, isa.Lanes(), |inputs[0]| / 64;
    GroupBounds(isa, n, 0);
    for bi := 0 to nfull
      invariant GroupAt(states[0], inputs, lanes, 0, bi * 64)
    {
      var start := bi * 64;
      var ptrs := new Ptr[MAX_LANES](_ => Null);
      for i := 0 to n
        invariant forall k :: 0 <= k < i ==> ptrs[k] == Ptr(inputs[k], start)
        invariant GroupAt(states[0], inputs, lanes, 0, bi * 64)
      {
        ptrs[i] := Ptr(inputs[i], start);
      }
      var m := GatherBlock(isa, ptrs[..], n);
      GatheredWords(m, ptrs[..], n, inputs, lanes, 0, start);
      GroupWordShapes(states[0], m, inputs, lanes, 0, start);
      ghost var st := states[0];
      states[0] := CompressWide(isa, states[0], m);
      GroupAdvances(states[0], st, m, inputs, lanes, 0, start);
    }
  }

  lemma GroupWordShapes(st: seq<Vec>, m: seq<Vec>, inputs: seq<seq<Byte>>, lanes: nat, g: nat, bytes: nat)
    requires BlockBoundary(inputs, bytes) && bytes + 64 <= |inputs[0]|
    requires GroupAt(st, inputs, lanes, g, bytes) && WordsAt(m, inputs, lanes, g, bytes)
    ensures Shape(st, lanes) && WordShape(m, lanes)
  {
    hide Shape, WordShape;
  }

  lemma GroupsAdvance(states': seq<seq<Vec>>, states: seq<seq<Vec>>, ms: seq<seq<Vec>>, inputs: seq<seq<Byte>>,
                      lanes: nat, groups: nat, bytes: nat)
    requires BlockBoundary(inputs, bytes) && bytes + 64 <= |inputs[0]|
    requires GroupsAt(states, inputs, lanes, groups, bytes) && |states'| == |ms| == MAX_GROUPS
    requires forall g :: 0 <= g < groups ==> WordsAt(ms[g], inputs, lanes, g, bytes)
    requires forall g :: 0 <= g < groups ==> Compressed(states'[g], states[g], ms[g], lanes)
    ensures GroupsAt(states', inputs, lanes, groups, bytes + 64)
  {
    hide GroupAt, WordsAt, Compressed;
    forall g | 0 <= g < groups ensures GroupAt(states'[g], inputs, lanes, g, bytes + 64) {
      GroupAdvances(states'[g], states[g], ms[g], inputs, lanes, g, bytes);
    }
  }

  lemma GroupsShapes(states: seq<seq<Vec>>, ms: seq<seq<Vec>>, inputs: seq<seq<Byte>>, lanes: nat, groups: nat, bytes: nat)
    requires BlockBoundary(inputs, bytes) && bytes + 64 <= |inputs[0]|
    requires GroupsAt(states, inputs, lanes, groups, bytes) && |ms| == MAX_GROUPS
    requires forall g :: 0 <= g < groups ==> WordsAt(ms[g], inputs, lanes, g, bytes)
    ensures forall g :: 0 <= g < groups ==> Shape(states[g], lanes) && WordShape(ms[g], lanes)
  {
    hide GroupAt, WordsAt, Shape, WordShape;
    forall g | 0 <= g < groups ensures Shape(states[g], lanes) && WordShape(ms[g], lanes) {
      GroupWordShapes(states[g], ms[g], inputs, lanes, g, bytes);
    }
  }

  /** The pipelined loop: the next block is gathered before the current one is compressed, all groups interleaved. */
  method PipelinedLoop(isa: Isa, inputs: seq<seq<Byte>>, states: array<seq<Vec>>) returns (ghost loop: MainLoop)
    requires Fits(isa, inputs) && Groups(|inputs|, isa.Lanes()) >= 2 && |inputs[0]| >= 64
    requires states.Length == MAX_GROUPS
    requires GroupsAt(states[..], inputs, isa.Lanes(), Groups(|inputs|, isa.Lanes()), 0)
    modifies states
    ensures loop == PipelineLoop
    ensures GroupsAt(states[..], inputs, isa.Lanes(), Groups(|inputs|, isa.Lanes()), Frame.Complete(|inputs[0]|))
  {
    hide GroupsAt, WordsAt, Compressed, Groups, Shape, WordShape;
    loop := PipelineLoop;
    var lanes, nfull := isa.Lanes(), |inputs[0]| / 64;
    var groups := Groups(|inputs|, lanes);
    var cur := GatherGroupsAt(isa, inputs, 0, groups);
    for bi := 0 to nfull
      invariant GroupsAt(states[..], inputs, lanes, groups, bi * 64)
      invariant |cur| == MAX_GROUPS
      invariant bi < nfull ==> forall g :: 0 <= g < groups ==> WordsAt(cur[g], inputs, lanes, g, bi * 64)
    {
      var next := cur;
      if bi + 1 < nfull {
        next := GatherGroupsAt(isa, inputs, (bi + 1) * 64, groups);
      }
      ghost var was := states[..];
      GroupsShapes(was, cur, inputs, lanes, groups, bi * 64);
      match groups {
        case 2 => CompressGroupsInterleaved(isa, states, cur, 2);
        case 3 => CompressGroupsInterleaved(isa, states, cur, 3);
        case 4 => CompressGroupsInterleaved(isa, states, cur, 4);
        case _ => assert false;
      }
      GroupsAdvance(states[..], was, cur, inputs, lanes, groups, bi * 64);
      cur := next;
    }
  }

  /** The sequential loop: gather all groups of a block, then compress them one after the other. */
  method SequentialLoop(isa: Isa, inputs: seq<seq<Byte>>, states: array<seq<Vec>>) returns (ghost loop: MainLoop)
    requires Fits(isa, inputs) && Groups(|inputs|, isa.Lanes()) >= 2 && |inputs[0]| >= 64
    requires states.Length == MAX_GROUPS
    requires GroupsAt(states[..], inputs, isa.Lanes(), Groups(|inputs|, isa.Lanes()), 0)
    modifies states
    ensures loop == GroupwiseLoop
    ensures GroupsAt(states[..], inputs, isa.Lanes(), Groups(|inputs|, isa.Lanes()), Frame.Complete(|inputs[0]|))
  {
    hide GroupsAt, WordsAt, Compressed, Groups, Shape, WordShape;
    loop := GroupwiseLoop;
    var lanes, nfull := isa.Lanes(), |inputs[0]| / 64;
    var groups := Groups(|inputs|, lanes);
    for bi := 0 to nfull
      invariant GroupsAt(states[..], inputs, lanes, groups, bi * 64)
    {
      var ms := GatherGroupsAt(isa, inputs, bi * 64, groups);
      ghost var was := states[..];
      GroupsShapes(was, ms, inputs, lanes, groups, bi * 64);
      for g := 0 to groups
        invariant forall h :: 0 <= h < g ==> Compressed(states[h], was[h], ms[h], lanes)
        invariant forall h :: g <= h < MAX_GROUPS ==> states[h] == was[h]
      {
        states[g] := CompressWide(isa, states[g], ms[g]);
      }
      GroupsAdvance(states[..], was, ms, inputs, lanes, groups, bi * 64);
    }
  }

  // ---- Padding and output ----

  /** The padded messages: what the lanes have folded when the kernel stores its digests. */
  function Padded(inputs: seq<seq<Byte>>): (p: seq<seq<Byte>>)
    ensures |p| == |inputs|
  {
    seq(|inputs|, i requires 0 <= i < |inputs| => Pad(inputs[i]))
  }

  lemma PaddedBatch(inputs: seq<seq<Byte>>)
    requires |inputs| >= 1 && EqualLengths(inputs)
    ensures var full := Frame.Complete(|inputs[0]|);
            EqualLengths(Padded(inputs)) && BlockBoundary(Padded(inputs), full) && |Padded(inputs)[0]| % 64 == 0
  {
    hide FinalBlocks;
    forall i | 0 <= i < |inputs| ensures |Padded(inputs)[i]| == |Padded(inputs)[0]| {
      PaddedLength(|inputs[i]|, inputs[i]);
      PaddedLength(|inputs[0]|, inputs[0]);
    }
    PaddedLength(|inputs[0]|, inputs[0]);
  }

  /** Below the last complete block a message and its padded form agree. */
  lemma GroupPadded(st: seq<Vec>, inputs: seq<seq<Byte>>, lanes: nat, g: nat)
    requires |inputs| >= 1 && EqualLengths(inputs)
    requires GroupAt(st, inputs, lanes, g, Frame.Complete(|inputs[0]|))
    ensures BlockBoundary(Padded(inputs), Frame.Complete(|inputs[0]|))
    ensures GroupAt(st, Padded(inputs), lanes, g, Frame.Complete(|inputs[0]|))
  {
    hide Lane, Fold, Shape, FinalBlocks;
    PaddedBatch(inputs);
    var full := Frame.Complete(|inputs[0]|);
    forall j | 0 <= j < lanes
      ensures StateOf(Lane(st, lanes, j)) == Fold(IV, LaneInput(Padded(inputs), lanes, g, j)[..full])
    {
      var msg := LaneInput(inputs, lanes, g, j);
      assert LaneInput(Padded(inputs), lanes, g, j) == Pad(msg);
      Frame.PadStart(msg, full);
    }
  }

  /** Every lane holds the final chaining state of its message. */
  predicate GroupDone(st: seq<Vec>, inputs: seq<seq<Byte>>, lanes: nat, g: nat)
    requires |inputs| >= 1
  {
    && Shape(st, lanes)
    && forall j :: 0 <= j < lanes ==> Digest(StateOf(Lane(st, lanes, j))) == Md5(LaneInput(inputs, lanes, g, j))
  }

  lemma GroupFinished(st: seq<Vec>, inputs: seq<seq<Byte>>, lanes: nat, g: nat)
    requires |inputs| >= 1 && EqualLengths(inputs)
    requires BlockBoundary(Padded(inputs), |Padded(inputs)[0]|)
    requires GroupAt(st, Padded(inputs), lanes, g, |Padded(inputs)[0]|)
    ensures GroupDone(st, inputs, lanes, g)
  {
    hide Lane, Fold, Shape, FinalBlocks, Digest;
    forall j | 0 <= j < lanes
      ensures Digest(StateOf(Lane(st, lanes, j))) == Md5(LaneInput(inputs, lanes, g, j))
    {
      var msg := LaneInput(inputs, lanes, g, j);
      var padded := LaneInput(Padded(inputs), lanes, g, j);
      assert padded == Pad(msg);
      assert padded[..|Padded(inputs)[0]|] == padded;
    }
  }

  /** The padding blocks of one group; the block count of lane 0 serves every lane. */
  method FinishGroup(isa: Isa, st: seq<Vec>, inputs: seq<seq<Byte>>, g: nat) returns (st': seq<Vec>)
    requires Fits(isa, inputs) && g < Groups(|inputs|, isa.Lanes())
    requires GroupAt(st, inputs, isa.Lanes(), g, Frame.Complete(|inputs[0]|))
    ensures GroupDone(st', inputs, isa.Lanes(), g)
  {
    hide GroupAt, WordsAt, Gathered, Compressed, GroupDone, Groups, Pad;
    var n, lanes := |inputs|, isa.Lanes();
    ghost var full, padded := Frame.Complete(|inputs[0]|), Padded(inputs);
    GroupBounds(isa, n, g);
    PaddedBatch(inputs);
    GroupPadded(st, inputs, lanes, g);
    var lo := g * lanes;
    var hi := if lo + lanes < n then lo + lanes else n;
    var gn := hi - lo;
    var pad := [];
    for lane := 0 to gn
      invariant |pad| == lane
      invariant forall k :: 0 <= k < lane ==> Frame.BlocksFrom(pad[k], padded[lo + k], full)
    {
      var blocks := Frame.FinalBlockList(inputs[lo + lane]);
      pad := pad + [blocks];
    }
    st' := st;
    for pi := 0 to |pad[0]|
      invariant GroupAt(st', padded, lanes, g, full + 64 * pi)
    {
      st' := CompressPadding(isa, st', pad, pi, padded, g, full + 64 * pi);
    }
    GroupFinished(st', inputs, lanes, g);
  }

  /** One padding block of every lane: block `pi`, which sits at `at` in the padded messages. */
  method CompressPadding(isa: Isa, st: seq<Vec>, pad: seq<seq<seq<Byte>>>, pi: nat,
                         ghost padded: seq<seq<Byte>>, ghost g: nat, ghost at: nat)
    returns (st': seq<Vec>)
    requires BlockBoundary(padded, at) && at + 64 <= |padded[0]|
    requires 1 <= |pad| <= isa.Lanes() && g * isa.Lanes() + |pad| <= |padded|
    requires |pad| == isa.Lanes() || g * isa.Lanes() + |pad| == |padded|
    requires forall k :: 0 <= k < |pad| ==>
               pi < |pad[k]| && |pad[k][pi]| == 64 && pad[k][pi] == padded[g * isa.Lanes() + k][at..at + 64]
    requires GroupAt(st, padded, isa.Lanes(), g, at)
    ensures GroupAt(st', padded, isa.Lanes(), g, at + 64)
  {
    hide GroupAt, WordsAt, Gathered, Compressed;
    var lanes, gn := isa.Lanes(), |pad|;
    var ptrs := new Ptr[MAX_LANES](_ => Null);
    for i := 0 to gn
      invariant forall k :: 0 <= k < i ==> ptrs[k] == Ptr(pad[k][pi], 0)
    {
      ptrs[i] := Ptr(pad[i][pi], 0);
    }
    forall k | 0 <= k < gn
      ensures ptrs[k].Readable() && ptrs[k].Block() == padded[g * lanes + k][at..at + 64]
    {
      assert pad[k][pi][0..64] == pad[k][pi];
    }
    var m := GatherBlock(isa, ptrs[..], gn);
    GatheredWords(m, ptrs[..], gn, padded, lanes, g, at);
    GroupWordShapes(st, m, padded, lanes, g, at);
    st' := CompressWide(isa, st, m);
    GroupAdvances(st', st, m, padded, lanes, g, at);
  }

  lemma LaneDigest(st: seq<Vec>, inputs: seq<seq<Byte>>, lanes: nat, g: nat, lane: nat)
    requires |inputs| >= 1 && GroupDone(st, inputs, lanes, g) && lane < lanes && g * lanes + lane < |inputs|
    ensures Shape(st, lanes)
    ensures StoreLe(st[0][lane]) + StoreLe(st[1][lane]) + StoreLe(st[2][lane]) + StoreLe(st[3][lane])
         == Md5(inputs[g * lanes + lane])
  {
    hide Md5, StoreLe;
    assert LaneInput(inputs, lanes, g, lane) == inputs[g * lanes + lane];
    assert Digest(StateOf(Lane(st, lanes, lane))) == Md5(inputs[g * lanes + lane]);
  }

  /** `store_digests`: the active lanes of a group, serialised in lane order. */
  method StoreDigests(st: seq<Vec>, lo: nat, n: nat, outputs: array<seq<Byte>>, at: nat,
                      ghost inputs: seq<seq<Byte>>, ghost lanes: nat, ghost g: nat, ghost was: seq<seq<Byte>>)
    requires |inputs| >= 1 && GroupDone(st, inputs, lanes, g) && lo == g * lanes
    requires n <= lanes && lo + n <= |inputs| && at + |inputs| <= outputs.Length
    requires Stored(outputs[..], was, inputs, at, lo)
    modifies outputs
    ensures Stored(outputs[..], was, inputs, at, lo + n)
  {
    hide Md5, StoreLe, Stored, GroupDone;
    for lane := 0 to n
      invariant Stored(outputs[..], was, inputs, at, lo + lane)
    {
      LaneDigest(st, inputs, lanes, g, lane);
      var digest := StoreLe(st[0][lane]) + StoreLe(st[1][lane]) + StoreLe(st[2][lane]) + StoreLe(st[3][lane]);
      StoredSlot(outputs[..], was, inputs, at, lo + lane, digest);
      ghost var mid := outputs[..];
      outputs[at + lo + lane] := digest;
      assert outputs[..] == mid[at + lo + lane := digest];
    }
  }

  /** `prefer_group_interleave`. */
  predicate PreferGroupInterleave(build: Build) {
    build.arch == Aarch64Le
  }

  /**
   `hash_equal_wide`: one call hashes up to MAX_GROUPS registers of equal-length messages into consecutive
   output slots. Each slot gets the digest of its own message and no other slot changes, for every lane
   count, every loop shape and every fill of the last group. Gathers are pipelined on AArch64 from two groups on.
   */
  method HashEqualWide(build: Build, isa: Isa, inputs: seq<seq<Byte>>, outputs: array<seq<Byte>>, at: nat)
    returns (ghost loop: MainLoop)
    requires Fits(isa, inputs) && at + |inputs| <= outputs.Length
    modifies outputs
    ensures Stored(outputs[..], old(outputs[..]), inputs, at, |inputs|)
    ensures loop == NoLoop <==> |inputs[0]| < 64
    ensures loop == SingleLoop <==> |inputs[0]| >= 64 && |inputs| <= isa.Lanes()
    ensures loop == PipelineLoop <==> |inputs[0]| >= 64 && |inputs| > isa.Lanes() && build.arch == Aarch64Le
  {
    hide GroupAt, GroupDone, Groups, Md5, Shape;
    loop := NoLoop;
    OneGroup(isa, |inputs|);
    var n, lanes := |inputs|, isa.Lanes();
    var groups := Groups(n, lanes);
    var nfull := |inputs[0]| / 64;
    var states := new seq<Vec>[MAX_GROUPS](_ => IvState(lanes));
    SomeGroup(isa, n);
    forall g | 0 <= g < groups ensures GroupAt(states[g], inputs, lanes, g, 0) {
      GroupStart(states[g], inputs, lanes, g);
    }
    if nfull > 0 {
      if groups == 1 {
        loop := SingleGroupLoop(isa, inputs, states);
      } else if PreferGroupInterleave(build) && groups >= 2 {
        loop := PipelinedLoop(isa, inputs, states);
      } else {
        loop := SequentialLoop(isa, inputs, states);
      }
    }
    FinishGroups(isa, inputs, states, outputs, at);
  }

  /** Padding and output, group by group. */
  method FinishGroups(isa: Isa, inputs: seq<seq<Byte>>, states: array<seq<Vec>>, outputs: array<seq<Byte>>, at: nat)
    requires Fits(isa, inputs) && at + |inputs| <= outputs.Length && states as object != outputs as object
    requires GroupsAt(states[..], inputs, isa.Lanes(), Groups(|inputs|, isa.Lanes()), Frame.Complete(|inputs[0]|))
    modifies outputs
    ensures Stored(outputs[..], old(outputs[..]), inputs, at, |inputs|)
  {
    hide GroupAt, GroupDone, Groups, Md5, Stored, Isa.Lanes;
    var n, lanes := |inputs|, isa.Lanes();
    var groups := Groups(n, lanes);
    ghost var was := outputs[..];
    StoredNone(was, inputs, at);
    for g := 0 to groups
      invariant Stored(outputs[..], was, inputs, at, if g * lanes < n then g * lanes else n)
      invariant outputs.Length == |was|
    {
      GroupBounds(isa, n, g);
      var lo := g * lanes;
      var hi := if lo + lanes < n then lo + lanes else n;
      var st := FinishGroup(isa, states[g], inputs, g);
      StoreDigests(st, lo, hi - lo, outputs, at, inputs, lanes, g, was);
    }
    LastGroup(isa, n);
  }

  lemma StoredNone(was: seq<seq<Byte>>, inputs: seq<seq<Byte>>, at: nat)
    ensures Stored(was, was, inputs, at, 0)
  {
  }

  /** The three loops are interchangeable: whatever brought the groups to a block, the vectors are the same. */
  lemma LoopShapesAgree(s: seq<seq<Vec>>, t: seq<seq<Vec>>, inputs: seq<seq<Byte>>, lanes: nat, groups: nat, bytes: nat)
    requires BlockBoundary(inputs, bytes)
    requires GroupsAt(s, inputs, lanes, groups, bytes) && GroupsAt(t, inputs, lanes, groups, bytes)
    ensures forall g :: 0 <= g < groups ==> s[g] == t[g]
  {
    hide GroupAt;
    forall g | 0 <= g < groups ensures s[g] == t[g] {
      GroupUnique(s[g], t[g], inputs, lanes, g, bytes);
    }
  }

  lemma OneGroup(isa: Isa, n: nat)
    requires n >= 1
    ensures Groups(n, isa.Lanes()) == 1 <==> n <= isa.Lanes()
  {
    match isa
    case Neon4 =>
    case Neon8 =>
    case Avx2 =>
    case Avx512 =>
  }

  lemma SomeGroup(isa: Isa, n: nat)
    requires n >= 1
    ensures Groups(n, isa.Lanes()) >= 1
  {
    match isa
    case Neon4 =>
    case Neon8 =>
    case Avx2 =>
    case Avx512 =>
  }

  lemma LastGroup(isa: Isa, n: nat)
    ensures n <= Groups(n, isa.Lanes()) * isa.Lanes()
  {
    match isa
    case Neon4 =>
    case Neon8 =>
    case Avx2 =>
    case Avx512 =>
  }
}
