/** One-shot hashing and its fast paths, `src/backend.rs`. */
module Backend {
  import opened Words
  import opened Rfc1321
  import opened Kernels
  import opened Frame
  import opened EmptyMessage

  /** The four ways through `hash`. */
  datatype Route = Constant | OneBlock | Bulk | Framed

  /**
   `hash`: a constant for the empty message, one padded block up to 55 bytes, a direct loop over the opt
   kernel from 64 bytes, and the generic framing in between. The route never shows in the digest.
   */
  method Hash(build: Build, input: seq<Byte>) returns (d: seq<Byte>, ghost route: Route)
    ensures d == Md5(input)
    ensures route == Constant <==> input == []
    ensures route == OneBlock <==> 1 <= |input| <= 55
    ensures route == Bulk <==> |input| >= 64 && build.opt && !build.forcePortable && build.arch != OtherArch
  {
    hide Fold, Compress, Digest, FinalBlocks, Md5;
    route := Constant;
    if |input| == 0 {
      EmptyDigestIsMd5();
      assert input == [];
      return EMPTY_DIGEST, route;
    }
    if |input| <= 55 {
      route := OneBlock;
      var block0, block1 := new Byte[64], new Byte[64];
      var used := BuildFinalBlocks(|input|, input, block0, block1);
      var state := new Word[4];
      state[0], state[1], state[2], state[3] := IV.a, IV.b, IV.c, IV.d;
      CompressBlock(BlockKernel(build), state, block0[..]);
      Md5Splits(input, 0);
      FoldNothing(IV);
      FoldOne(IV, block0[..]);
      d := StateToBytes(state);
      return;
    }
    if HasOptKernel(build) && |input| >= 64 {
      route := Bulk;
      d := HashOptBulk(build, input);
      return;
    }
    route := Framed;
    d := HashWith(BlockKernel(build), input);
  }

  /** `hash_opt_bulk`. Without an opt kernel the source compiles the generic framing instead. */
  method HashOptBulk(build: Build, input: seq<Byte>) returns (d: seq<Byte>)
    ensures d == Md5(input)
  {
    hide Fold, Compress, Digest, FinalBlocks, Md5;
    if !HasOptKernel(build) {
      d := HashWith(BlockKernel(build), input);
      return;
    }
    var kernel := OptKernel(build);
    var full := Complete(|input|);
    Md5Splits(input, full);
    var state := new Word[4];
    state[0], state[1], state[2], state[3] := IV.a, IV.b, IV.c, IV.d;
    CompressChunks(kernel, state, input[..full]);
    var pad0, pad1 := new Byte[64], new Byte[64];
    var used := BuildFinalBlocks(|input|, input[full..], pad0, pad1);
    CompressUsed(kernel, state, pad0[..], pad1[..], used);
    d := StateToBytes(state);
  }

  /** `hash_textbook`. */
  method HashTextbook(input: seq<Byte>) returns (d: seq<Byte>)
    ensures d == Md5(input)
  {
    hide Md5;
    if |input| == 0 {
      EmptyDigestIsMd5();
      assert input == [];
      return EMPTY_DIGEST;
    }
    d := HashWith(Textbook, input);
  }

  /** `hash_in_tree`. */
  method HashInTree(input: seq<Byte>) returns (d: seq<Byte>)
    ensures d == Md5(input)
  {
    hide Md5;
    if |input| == 0 {
      EmptyDigestIsMd5();
      assert input == [];
      return EMPTY_DIGEST;
    }
    d := HashWith(InTree, input);
  }
}
