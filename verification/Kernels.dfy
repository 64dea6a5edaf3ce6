/**
 The build configuration, the single-stream kernel it selects (`compress_block` of `src/backend.rs`) and
 the block loop of `src/compress.rs`. A compressor that the source passes as a closure is a `Kernel` here.
 */
module Kernels {
  import opened Words
  import opened Rfc1321
  import Scalar
  import X86
  import Aarch64

  /** How a call ended: an `assert!` of the source that fails is `Panicked`. */
  datatype Outcome = Returned | Panicked

  datatype Arch = X86_64 | Aarch64Le | OtherArch

  /** The cargo features and the target that the `cfg` attributes test. */
  datatype Build = Build(arch: Arch, forcePortable: bool, opt: bool, simd: bool, std: bool, pairInterleave: bool)

  datatype Kernel = Textbook | InTree | Assembly | Ror

  /** `has_opt_kernel`. */
  predicate HasOptKernel(build: Build) {
    build.opt && !build.forcePortable && build.arch != OtherArch
  }

  /** The kernel of `single_stream::transform`. */
  function OptKernel(build: Build): Kernel
    requires HasOptKernel(build)
  {
    if build.arch == X86_64 then Assembly else Ror
  }

  /** The kernel behind `compress_block`. */
  function BlockKernel(build: Build): Kernel {
    if build.forcePortable then Textbook
    else if HasOptKernel(build) then OptKernel(build)
    else InTree
  }

  // The three `cfg` arms in the body of `compress_block`. If two were active, a block would be compressed twice.

  predicate PortableArm(build: Build) {
    build.forcePortable
  }

  predicate OptArm(build: Build) {
    build.opt && !build.forcePortable && (build.arch == X86_64 || build.arch == Aarch64Le)
  }

  predicate InTreeArm(build: Build) {
    !build.forcePortable && (!build.opt || !(build.arch == X86_64 || build.arch == Aarch64Le))
  }

  /** Exactly one arm is active in every build, and it is the one `BlockKernel` names. */
  lemma ExactlyOneArm(build: Build)
    ensures (if PortableArm(build) then 1 else 0) + (if OptArm(build) then 1 else 0) + (if InTreeArm(build) then 1 else 0) == 1
    ensures PortableArm(build) <==> BlockKernel(build) == Textbook
    ensures OptArm(build) <==> BlockKernel(build) == Assembly || BlockKernel(build) == Ror
    ensures InTreeArm(build) <==> BlockKernel(build) == InTree
    ensures OptArm(build) <==> HasOptKernel(build)
    ensures BlockKernel(build) == Assembly ==> build.arch == X86_64
    ensures BlockKernel(build) == Ror ==> build.arch == Aarch64Le
    ensures HasOptKernel(build) ==> OptKernel(build) == BlockKernel(build)
  {
    match build.arch
    case X86_64 =>
    case Aarch64Le =>
    case OtherArch =>
  }

  /** Every kernel computes the reference compression, so no selection can change a digest. */
  method CompressBlock(kernel: Kernel, state: array<Word>, block: seq<Byte>)
    requires state.Length == 4 && |block| == 64
    modifies state
    ensures StateOf(state[..]) == Compress(old(StateOf(state[..])), block)
  {
    hide Compress;
    match kernel
    case Textbook => Scalar.CompressTextbook(state, block);
    case InTree => Scalar.CompressInTree(state, block);
    case Assembly => X86.Transform(state, block);
    case Ror => Aarch64.Transform(state, block);
  }

  // ---- Folding over blocks ----

  lemma {:induction false} FoldAppend(s: State, x: seq<Byte>, y: seq<Byte>)
    requires |x| % 64 == 0 && |y| % 64 == 0
    ensures Fold(s, x + y) == Fold(Fold(s, x), y)
    decreases |x|
  {
    hide Compress;
    if x == [] {
      assert x + y == y;
    } else {
      assert (x + y)[..64] == x[..64] && (x + y)[64..] == x[64..] + y;
      FoldAppend(Compress(s, x[..64]), x[64..], y);
    }
  }

  lemma FoldOne(s: State, block: seq<Byte>)
    requires |block| == 64
    ensures Fold(s, block) == Compress(s, block)
  {
    hide Compress;
    assert block[..64] == block && block[64..] == [];
  }

  /** The fold over a growing prefix advances by one compression per block. */
  lemma FoldNext(s: State, data: seq<Byte>, k: nat)
    requires 64 * k + 64 <= |data|
    ensures Fold(s, data[..64 * k + 64]) == Compress(Fold(s, data[..64 * k]), data[64 * k..64 * k + 64])
  {
    hide Compress, Fold;
    var x, y := data[..64 * k], data[64 * k..64 * k + 64];
    assert data[..64 * k + 64] == x + y;
    FoldAppend(s, x, y);
    FoldOne(Fold(s, x), y);
  }

  lemma FoldNothing(s: State)
    ensures Fold(s, []) == s
  {
  }

  /** The chunk loop `for block in chunks { compress(&mut state, block) }`. */
  method CompressChunks(kernel: Kernel, state: array<Word>, data: seq<Byte>)
    requires state.Length == 4 && |data| % 64 == 0
    modifies state
    ensures StateOf(state[..]) == Fold(old(StateOf(state[..])), data)
  {
    hide Compress, Fold;
    ghost var start := StateOf(state[..]);
    FoldNothing(start);
    for k := 0 to |data| / 64
      invariant StateOf(state[..]) == Fold(start, data[..64 * k])
    {
      FoldNext(start, data, k);
      CompressBlock(kernel, state, data[64 * k..64 * k + 64]);
    }
    assert data[..64 * (|data| / 64)] == data;
  }

  /** `compress_blocks_with`: panics on a partial block, otherwise folds through a local copy of the state. */
  method CompressBlocksWith(kernel: Kernel, state: array<Word>, data: seq<Byte>) returns (outcome: Outcome)
    requires state.Length == 4
    modifies state
    ensures outcome == if |data| % 64 == 0 then Returned else Panicked
    ensures outcome == Returned ==> StateOf(state[..]) == Fold(old(StateOf(state[..])), data)
    ensures outcome == Panicked ==> state[..] == old(state[..])
  {
    hide Fold;
    if |data| % 64 != 0 {
      return Panicked;
    }
    var local := new Word[4](i requires 0 <= i < 4 reads state => state[i]);
    CompressChunks(kernel, local, data);
    state[0], state[1], state[2], state[3] := local[0], local[1], local[2], local[3];
    return Returned;
  }
}
