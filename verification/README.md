# md5-simd: one digest through every code path

The repository computes MD5 (RFC 1321) through many code shapes: unrolled scalar kernels, an AArch64 kernel,
x86_64 assembly, a fused multi-buffer vector kernel with four adapters, a streaming hasher, and batch
schedulers that choose between them. They must all return the same bytes. This project models those shapes
and proves each of them equal to one reference definition.

## How it is built

- `Rfc1321.dfy` is the reference: the step in the shift-register form of section 3.4, `Compress` for a block,
  `Fold` for blocks, `Pad` and `Md5` for messages. `Consts.dfy` holds the tables of `src/consts.rs`.
- `Scalar.dfy`, `Aarch64.dfy` and `X86.dfy` are the single-stream kernels. The assembly is data: every
  instruction of both asm blocks is listed step by step, an interpreter executes it, and a simulation carries
  the invariant of the schedule (message word added one step early, rolling scratch copy) through all 64 steps.
- `Kernels.dfy`, `Frame.dfy`, `EmptyMessage.dfy` and `Backend.dfy` are kernel selection, padding and one-shot
  hashing; `Stream.dfy` and `Streams.dfy` the streaming state machine and the loops over several streams.
- `Gather.dfy`, `Lanes.dfy` and `Wide.dfy` are the vector side: block gathers through the real shuffles, the
  projection of a vector step on one lane, and the fused kernel with its three main loops.
- `Multibuf.dfy`, `Dispatch.dfy` and `Engine.dfy` are the pair path, the run scheduler with its plan, and
  grouped hashing. `Batch.dfy` states what a batch call promises about its slots.

Conventions: a word is `bv32` and a byte `bv8`; lengths and counts are `nat` with the wrap at 2^64 written out.
An `assert!` of the source that fails is the outcome `Panicked`. An output
sub-slice is the array and the position where it starts. A build is a `Build` value (the cargo features and
the target), a CPU two arbitrary booleans. A compressor passed as a closure is a `Kernel` value. Ghost results
(`calls`, `pairs`, `route`, `loop`, `used`, `grouped`) record decisions that the source does not return.

Loops that the source unrolls with identical bodies (`compress_wide`, `compress_groups_interleaved`) are loops
over the step number; the scalar kernels, whose unrolled lines differ, are written out line by line, one method
for each round. The Boolean function of a step is selected by comparing the step number, where the source
divides it by 16.

## Where code and documentation disagree

The model follows the code. Interleaving with pipelined gathers starts at two groups
(`src/simd/wide.rs:343`), while `docs/architecture.md:73-79` and `src/simd/wide.rs:10` say three. A run of nine
long messages is one kernel call (`Dispatch.RunInOneCall`), while `docs/performance.md:256` has an
eight-message group plus a scalar tail. Below 64 bytes it takes eight neighbours to reach a vector kernel
(`Dispatch.FourMessageRule`), while line 122 of the repository's top-level `README.md`, not this file, names four.

## Model

| member | source | states |
|---|---|---|
| Rfc1321.MessageOrder | src/consts.rs:84-90 | the message-word table is the section 3.4 schedule of RFC 1321: i, 5i+1, 3i+5 and 7i modulo 16, round by round |
| Rfc1321.RotationOrder | src/consts.rs:77-82 | the rotation table holds the four RFC amounts of each round, repeating every four steps |
| Words.LoadLeValue | src/compress.rs:15-26 | the word loaded at any offset is the little-endian number of the four bytes there |
| Words.StoreOfLoad | src/compress.rs:15-26 | at every offset of any byte sequence a loaded word serialises back to the four bytes found there |
| Rfc1321.BlockWordBytes | src/compress.rs:15-26 | word k of a block is the little-endian number of its bytes 4k to 4k + 3, for all sixteen words |
| Rfc1321.DigestBijection | src/compress.rs:306-315 | any sixteen bytes are the digest of exactly one chaining state, the one their little-endian words name |
| Rfc1321.DigestInjective | src/compress.rs:308-315 | the sixteen little-endian digest bytes determine the chaining state |
| Words.RotationsAgree | src/simd/single_aarch.rs:40-56 | for every amount 1 to 31, rotate-left, the two-shift form of the vector units and `ror(32 - r)` are the same function |
| Scalar.FastMixIsMix | src/compress.rs:28-53 | in every round the production mask and addition identities equal the RFC Boolean functions on all words |
| Scalar.LoadM | src/compress.rs:15-26 | the sixteen words are the little-endian words of the block, each read inside its 64 bytes |
| Scalar.DestStepIsStep | src/consts.rs:92-93 | writing the step word into the register that the a, d, c, b cycle names advances the role tuple by one RFC step |
| Scalar.StepDest | src/compress.rs:55-76 | the in-place table-driven production step is one RFC step of the roles |
| Scalar.CompressTextbook | src/compress.rs:180-286 | the 64 unrolled textbook steps and the feed-forward leave the reference compression in the state array |
| Scalar.CompressInTree | src/compress.rs:77-178 | the 64 unrolled production steps, with their own Boolean expressions and register roles, leave the same result |
| Aarch64.RorStep | src/simd/single_aarch.rs:58-97 | adding the word before the constant and rotating right by 32 - r still gives the RFC step word |
| Aarch64.Transform | src/simd/single_aarch.rs:30-171 | the AArch64 kernel with on-demand loads and written-out indices and amounts leaves the reference compression, for every state and block |
| X86.StepCodeIsMacroCall | src/simd/single_x86.rs:60-807 | each of the first 63 listed steps is its round's macro with the right roles, round constant, rotation and the NEXT step's message offset |
| X86.LastCodeIsMacro | src/simd/single_x86.rs:801-808 | the last listed step neither preloads a word nor refreshes the scratch copy |
| X86.StepSimulates | src/simd/single_x86.rs:60-800 | one step keeps the preload invariant: role a already holds its message word, b, c, d are exact, t1 equals d; the roles advance by one RFC step, across all round boundaries |
| X86.LastStepSimulates | src/simd/single_x86.rs:801-808 | after the last step every register is exact |
| X86.CodesSimulate | src/simd/single_x86.rs:60-800 | any stretch of the listing carries the invariant from step i to step j |
| X86.ProgramSimulates | src/simd/single_x86.rs:58-808 | both asm blocks, run instruction by instruction from arbitrary scratch registers, leave the 64-step RFC result in a, b, c, d |
| X86.Transform | src/simd/single_x86.rs:28-873 | the assembly kernel leaves the reference compression in the state array, for every state, block and initial scratch content |
| Kernels.ExactlyOneArm | src/backend.rs:26-68 | in every build exactly one of the three conditional arms of `compress_block` is active, so no block is compressed twice or skipped; the opt arm is active exactly where `has_opt_kernel` says so, with the assembly on x86_64 and the `ror` kernel on AArch64 |
| Kernels.CompressBlock | src/backend.rs:39-68 | whichever kernel is selected, the new state is the reference compression of the old one |
| Kernels.FoldAppend | src/compress.rs:288-304 | folding a concatenation of whole blocks is folding its parts one after the other |
| Kernels.CompressBlocksWith | src/compress.rs:288-304 | panics exactly when the data is not whole blocks, leaving the state alone; otherwise the state is the fold over all blocks |
| Frame.ZerosAreMinimal | src/frame.rs:11-29 | the number of zero bytes is the only one below 64 that section 3.1 of RFC 1321 allows |
| Frame.PadSplits | src/frame.rs:11-62 | complete blocks followed by the final blocks of the rest are exactly the padded message |
| Frame.LengthField | src/frame.rs:13 | the eight length bytes are those of eight times the byte count modulo 2^64, least significant first |
| Frame.FinalBlocksLayout | src/frame.rs:11-29 | what stands where in the final blocks: tail, 0x80, zeros, length field, in 64 bytes up to 55 tail bytes and 128 from 56 |
| Frame.BitLengthMeaning | src/frame.rs:13 | two byte counts get the same length field if and only if they agree modulo 2^61 |
| Frame.PadInjective | src/frame.rs:11-62 | the padded message determines the message, for messages of every length |
| Frame.BuildFinalBlocks | src/frame.rs:11-29 | one block up to 55 tail bytes, two from 56; the blocks are the final blocks of the padded message; with one block the second buffer is untouched |
| Frame.FinalizeWith | src/frame.rs:49-62 | the digest is the serialised fold of the final blocks from the given state |
| Frame.HashWith | src/frame.rs:31-47 | one-shot framing returns the RFC 1321 digest with every kernel, the empty message included |
| EmptyMessage.EmptyDigestIsMd5 | src/backend.rs:16-23 | the constant for the empty message is its RFC 1321 digest, by evaluation of all 64 steps |
| Backend.Hash | src/backend.rs:85-101 | every route returns the RFC 1321 digest, for every input and build: the constant for the empty message only, one padded block for 1 to 55 bytes, the bulk loop exactly from 64 bytes on in builds with an opt kernel, generic framing otherwise |
| Backend.HashOptBulk | src/backend.rs:103-139 | the direct bulk loop returns the RFC 1321 digest |
| Backend.HashTextbook | src/backend.rs:189-196 | the textbook route returns the RFC 1321 digest |
| Backend.HashInTree | src/backend.rs:198-205 | the in-tree route returns the RFC 1321 digest |
| Stream.Raw.constructor | src/core.rs:36-44 | a new hasher is the stream that has absorbed nothing |
| Stream.Raw.FromParts | src/core.rs:46-54 | the given chaining words and count, and an empty buffer |
| Stream.Raw.Update | src/core.rs:64-90 | whatever mix of buffer fill, whole blocks and rest applies, the new state is the fold of all complete blocks of buffered plus new bytes, the rest is buffered (fewer than 64 bytes), the count wraps at 2^64 |
| Stream.Raw.UpdateOpt | src/core.rs:92-147 | the same absorption, by its own copy of the code and its own chunk loop when the build has an opt kernel, through `update` otherwise |
| Stream.Raw.DigestSnapshot | src/core.rs:149-161 | returns the digest of the stream and changes nothing |
| Stream.Raw.Reset | src/core.rs:163-167 | back to the fresh stream |
| Stream.Raw.FinalizeReset | src/md5.rs:68-74 | returns the digest of the stream and leaves a fresh one |
| Stream.AbsorbSplit | src/core.rs:64-90 | splitting input over several updates never matters, from any state |
| Stream.SnapshotIsMd5 | src/core.rs:149-161 | a snapshot is the one-shot digest of everything absorbed, also after the 64-bit count wrapped |
| Stream.StreamRefinesOneShot | src/core.rs:64-167 | over every run of updates, snapshots and resets the digests are those of a reference stream that remembers every byte and hashes it in one shot |
| Stream.RunEvents | src/md5.rs:42-81 | a run of updates, snapshots, resets and finalizing resets on a hasher object, for any run and build, returns the digests of the reference stream and leaves the object representing its message |
| Stream.ResumedStream | src/md5.rs:31-40 | resuming from chaining words and a byte count continues the prefix if and only if the prefix ends on a block boundary |
| Stream.ResumedRun | src/md5.rs:31-40 | resumed after a block-aligned prefix, every run returns the one-shot digests of messages that begin with the prefix |
| Stream.CountsCongruent | src/core.rs:46-134 | streams equal but for counts congruent modulo 2^61 give equal digests over every common run, across counter wrap |
| Stream.FinalBlocksMeaning | src/frame.rs:11-29 | that congruence is exact: with other counts the final blocks differ |
| Streams.UpdateMany | src/engine.rs:141-151 | panics on a length mismatch and changes nothing; otherwise stream i absorbs input i and only that |
| Streams.FinalizeMany | src/engine.rs:153-168 | panics when outputs are short; otherwise slot i is the snapshot of stream i, streams and later slots stay |
| Multibuf.InterleaveSteps | src/multibuf.rs:28-31 | two step sequences interleaved one step at a time end where each ends alone |
| Multibuf.CompressPair | src/multibuf.rs:16-42 | two interleaved compressions are two independent ones |
| Multibuf.HashPair | src/multibuf.rs:44-70 | both results are the RFC 1321 digests, on the pair path and off it, the block count of the first message serving both; the pair path runs exactly for equal lengths in builds with pair-interleave and neither force-portable nor opt |
| Multibuf.PairsDisjoint | src/multibuf.rs:88-103 | the planned pairs are neighbours of one length from 64 bytes on, in input order, without overlap |
| Multibuf.HashManyDispatch | src/multibuf.rs:72-104 | panics exactly when outputs are short; otherwise every slot gets the digest of its own input and later slots stay, and the pairs hashed together are the plan where the pair path is active and none elsewhere |
| Gather.Transpose8Transposes | src/simd/avx2.rs:18-49 | the unpack and permute stages compose to the 8x8 transpose |
| Gather.Transpose4Transposes | src/simd/neon.rs:16-26 | the `vtrn` and combine stages compose to the 4x4 transpose |
| Gather.GatherAvx2 | src/simd/avx2.rs:56-82 | word w of lane i is little-endian word w of the block of lane min(i, n - 1); every load stays inside its 64-byte block |
| Gather.GatherAvx512 | src/simd/avx512.rs:21-60 | the same for sixteen lanes through two transposes and inserts |
| Gather.GatherNeon4 | src/simd/neon.rs:31-57 | the same for four lanes |
| Gather.GatherNeon8 | src/simd/neon8.rs:73-104 | the same for register pairs of four lanes |
| Gather.GatherBlock | src/simd/wide.rs:39-44 | the adapter contract, for every adapter and every 1..LANES active lanes |
| Lanes.EveryRotationHasArm | src/simd/avx2.rs:125-153 | the immediate-shift arms are exactly the amounts of the rotation table, so the variable-shift arm is not taken |
| Lanes.LaneMixIsMix | src/simd/wide.rs:59-64 | the vector Boolean forms, with G by xor, equal the RFC functions |
| Lanes.WideWordLane | src/simd/wide.rs:54-67 | lane j of the register a vector step writes is the RFC step word of lane j alone |
| Lanes.WideStepLane | src/simd/wide.rs:54-67 | projecting a vector step on a lane is the RFC step of that lane |
| Lanes.SteppedEnd | src/simd/wide.rs:147-150 | 64 steps and the closing additions compress every lane |
| Wide.WideStepWithK | src/simd/wide.rs:54-67 | one step with a shared round constant advances all lanes in lockstep |
| Wide.CompressWide | src/simd/wide.rs:74-151 | every lane of the result is the scalar compression of that lane's state and words; filler lanes cannot affect active ones |
| Wide.CompressGroupsInterleaved | src/simd/wide.rs:209-300 | advancing two to four groups together one step at a time gives each group what it gets alone; unused groups stay |
| Wide.GatherGroupsAt | src/simd/wide.rs:178-207 | every lane of every active group holds the block at the offset of its message, filler lanes that of the last message |
| Wide.GroupAdvances | src/simd/wide.rs:329-376 | compressing gathered blocks advances every lane of a group by exactly one block of its message |
| Wide.SingleGroupLoop | src/simd/wide.rs:330-342 | after the single-group loop every lane has folded all complete blocks |
| Wide.PipelinedLoop | src/simd/wide.rs:343-365 | the same after the loop that gathers block bi + 1 before compressing block bi, for two, three and four groups; the fourth, unreachable arm of its match is proved dead |
| Wide.SequentialLoop | src/simd/wide.rs:366-376 | the same after the gather-then-compress loop |
| Wide.LoopShapesAgree | src/simd/wide.rs:329-377 | group states brought to the same block by different loops are the same vectors |
| Wide.FinishGroup | src/simd/wide.rs:379-397 | padding every lane with the block count of lane 0 leaves every lane with its message's digest |
| Wide.StoreDigests | src/simd/wide.rs:163-176 | active lanes are written to their slots in lane order, nothing else is written |
| Wide.HashEqualWide | src/simd/wide.rs:315-400 | for every adapter, loop shape and 1 to 4*LANES equal-length messages, each slot gets the RFC 1321 digest of its message and every other slot stays; gathers are pipelined exactly on AArch64, from 64 bytes on, for more than one group |
| Dispatch.RuntimeLanesExactly | src/simd/platform.rs:25-103 | from the features, the target and the CPU: when the reported width is 16, when 8, and that it is 1 otherwise |
| Dispatch.PortableIsScalar | src/simd/platform.rs:25-199 | a force-portable build reports one lane and chooses no vector kernel, whatever else it enables and whatever the CPU offers |
| Dispatch.ChosenKernelRuns | src/simd/platform.rs:148-199 | a vector kernel is chosen exactly where more than one lane is reported, and only one that the build has and the CPU supports, for the batch sizes its branch names |
| Dispatch.RuntimeLanesIsWidest | src/simd/platform.rs:65-103 | the reported width is the widest register the build and CPU offer, or 1 |
| Dispatch.ChoiceIsNarrowestFit | src/simd/platform.rs:148-199 | a batch goes to the narrowest available register that holds it, to the widest when none does, to the scalar loop only when there is no adapter |
| Dispatch.ChosenKernelFits | src/simd/platform.rs:148-199 | every batch of 1 to four times the reported width makes one to four groups on the kernel chosen for it |
| Dispatch.HashEqualN | src/simd/platform.rs:145-206 | n messages of one length fill n slots with their digests on any build and CPU, on the chosen kernel, which is only entered where it is available; other slots stay |
| Dispatch.RunIsMaximal | src/simd/mod.rs:129-133 | the scanned run is all of one length and cannot be extended |
| Dispatch.PlanTiles | src/simd/mod.rs:127-152 | the scheduled calls cover the inputs in order, each input exactly once |
| Dispatch.TilesCount | src/simd/mod.rs:127-152 | scalar hashes and kernel messages add up to the number of inputs |
| Dispatch.AllScalar | src/simd/mod.rs:163-169 | below 32 bytes, below four lanes or below the threshold the whole run is scalar |
| Dispatch.RunShape | src/simd/mod.rs:135-171 | the calls of a run one by one, for m = q*B + r with B four registers: q full batches from the left, then the remainder in one kernel call from the threshold (4, or 8 below 64 bytes) on, message by message below it |
| Dispatch.RunAccounting | src/simd/mod.rs:135-171 | a run of m messages from 32 bytes on makes floor(m/B) full kernel calls plus one for a remainder of at least the threshold (4, or 8 below 64 bytes), with B four registers; only a smaller remainder is scalar |
| Dispatch.PlanAccounting | src/simd/mod.rs:127-171 | for any list of lengths the scalar hashes and kernel calls of the whole plan are the sums, over the maximal runs, of what quotient and remainder of each run give |
| Dispatch.PairAccounting | src/multibuf.rs:88-103 | on the pair path every maximal run of messages from 64 bytes on gives half its length in pairs, so pairing from the left loses none |
| Dispatch.RunInOneCall | src/simd/mod.rs:163-171 | a run between the threshold and B goes to one kernel call whole, with no scalar tail |
| Dispatch.FourMessageRule | src/simd/mod.rs:163-171 | the promise of the documentation, vectors for every run of at least four messages from 32 bytes on, holds for a run if and only if it is not four to seven messages of 32 to 63 bytes; those are all scalar |
| Dispatch.ScheduledCallsFit | src/simd/wide.rs:322-324 | every kernel call the scheduler makes is fused and has one to four groups on its kernel |
| Dispatch.KernelsUsedIff | src/simd/mod.rs:127-171 | the plan contains a kernel call if and only if four neighbours of at least 64 bytes, or eight of at least 32, share a length |
| Dispatch.HashRun | src/simd/mod.rs:135-150 | one run is hashed into its slots by exactly the planned calls |
| Dispatch.HashManyDispatch | src/simd/mod.rs:113-153 | panics exactly when outputs are short; otherwise, for any lengths, build and CPU, every slot gets the digest of its own input, later slots stay, and the calls issued are the plan |
| Engine.HasSimdSizedAdjacentRun | src/engine.rs:177-191 | true if and only if four neighbours share a length |
| Engine.SortByLength | src/engine.rs:91-92 | some length-sorted permutation of the indices, with its inverse and the same multiset of lengths |
| Engine.MaxRun | src/engine.rs:93-102 | the run counter over the sorted order is the largest multiplicity of any length |
| Engine.Scatter | src/engine.rs:111-113 | for any permutation every input slot receives the digest of its own input and no other slot changes |
| Engine.HashMany | src/engine.rs:60-65 | the batch promise of the scheduler |
| Engine.HashManyGrouped | src/engine.rs:67-114 | every slot gets the digest of its own input and later slots stay, whichever route is taken; the sorted route is taken if and only if no four neighbours share a length but some length occurs four times |
| Engine.UngroupedIsScalar | src/engine.rs:86-89 | without four equal neighbours plain hashing is all scalar |
| Engine.SortedUsesKernelsIff | src/engine.rs:108-110 | a sorted plan uses the vector kernels if and only if some multiplicity reaches the threshold of its length |
| Engine.SortedAccounting | src/engine.rs:108-110 | the scalar hashes and kernel calls of a sorted plan are the sums, over the distinct lengths, of what quotient and remainder of the multiplicity give |
| Engine.GroupingSaves | src/engine.rs:79-114 | the exact saving of the sorted route: plain hashing would be all scalar, the sorted plan leaves only the remainders below the threshold scalar and moves every other message to a kernel call |
| Engine.GroupingDecision | src/engine.rs:79-107 | when the sorted route is taken plain hashing would have been all scalar, and the sorted plan uses vectors exactly when the multiplicities allow it |

## Left out

- Wide vectors in place: the four registers of a group are a sequence that is reassigned, and adapter gathers collect words in a sequence; the arrays of groups, pointers, states, blocks and outputs are updated in place.
- Raw pointers: a pointer is a position in readable bytes, so alignment, aliasing of inputs and prefetch do not appear; that every load stays inside its block is proved.
- The variable-shift arm of each adapter's `rotl`: no entry of the rotation table reaches it (Lanes.EveryRotationHasArm).
- The library sort of `hash_many_grouped`: a small insertion sort stands in for it, and only its contract is used.
- `std` gating of `hash_many_grouped`: the method is modelled for every build.
- Readers, writers, hex encoding, string results, `hash_many_hex`: plumbing over the digest.
- `src/digest_compat.rs`: depends on a block buffer that is not part of this model.
- `src/state.rs`: a thin wrapper over the same state machine; it inherits the streaming results.
- CPU feature probing and its caching, backend names and labels: capabilities are arbitrary booleans.
- Zeroizing and drop behaviour: no functional claim; a scrubbed hasher is outside the model until it is reset.
- That the K table is floor(2^32 |sin(i + 1)|): the constants are taken as given, and the empty-message digest is recomputed from them.
