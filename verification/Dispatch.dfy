/** Kernel selection of `src/simd/platform.rs` and the run scheduler of `src/simd/mod.rs`. */
module Dispatch {
  import opened Words
  import opened Rfc1321
  import opened Kernels
  import opened Gather
  import opened Wide
  import opened Batch
  import Backend
  import Frame
  import Multibuf

  // ---- Capabilities ----

  /** What CPUID reports. */
  datatype Cpu = Cpu(avx2: bool, avx512f: bool)

  /** `compiled`: whether batch SIMD is part of this build. */
  predicate Compiled(build: Build) {
    build.simd && build.arch != OtherArch && !build.forcePortable
  }

  /** Detection needs `std`; without it x86_64 conservatively reports nothing. */
  predicate HasAvx2(build: Build, cpu: Cpu) {
    build.std && cpu.avx2
  }

  predicate HasAvx512(build: Build, cpu: Cpu) {
    build.std && cpu.avx512f && HasAvx2(build, cpu)
  }

  /** `lanes`: the best usable batch width. */
  function RuntimeLanes(build: Build, cpu: Cpu): nat {
    if !Compiled(build) then 1
    else if build.arch == Aarch64Le then Neon8.Lanes()
    else if HasAvx512(build, cpu) then Avx512.Lanes()
    else if HasAvx2(build, cpu) then Avx2.Lanes()
    else 1
  }

  datatype Choice = Fused(isa: Isa) | Sequential

  /** The branch of `hash_equal_n` for a batch of `n` messages. */
  function ChooseKernel(build: Build, cpu: Cpu, n: nat): Choice {
    if !Compiled(build) then Sequential
    else if build.arch == Aarch64Le then (if n >= 5 then Fused(Neon8) else Fused(Neon4))
    else if n <= 8 && HasAvx2(build, cpu) then Fused(Avx2)
    else if HasAvx512(build, cpu) then Fused(Avx512)
    else if HasAvx2(build, cpu) then Fused(Avx2)
    else Sequential
  }

  /** The adapters that this build on this machine may enter. */
  function Available(build: Build, cpu: Cpu): set<Isa> {
    if !Compiled(build) then {}
    else if build.arch == Aarch64Le then {Neon4, Neon8}
    else (if HasAvx2(build, cpu) then {Avx2} else {}) + (if HasAvx512(build, cpu) then {Avx512} else {})
  }

  /** Exactly which builds and machines report which width. */
  lemma RuntimeLanesExactly(build: Build, cpu: Cpu)
    ensures RuntimeLanes(build, cpu) == 16
       <==> build.simd && !build.forcePortable && build.arch == X86_64 && build.std && cpu.avx2 && cpu.avx512f
    ensures RuntimeLanes(build, cpu) == 8
       <==> build.simd && !build.forcePortable
            && (build.arch == Aarch64Le || (build.arch == X86_64 && build.std && cpu.avx2 && !cpu.avx512f))
    ensures RuntimeLanes(build, cpu) in {1, 8, 16}
  {
    assert Neon8.Lanes() == 8 && Avx2.Lanes() == 8 && Avx512.Lanes() == 16;
  }

  /** A portable build never enters a vector kernel, whatever else it enables and whatever the CPU offers. */
  lemma PortableIsScalar(build: Build, cpu: Cpu)
    requires build.forcePortable
    ensures RuntimeLanes(build, cpu) == 1 && forall n :: ChooseKernel(build, cpu, n) == Sequential
  {
  }

  /** A vector kernel is chosen exactly where more than one lane is reported, and only one the machine can run. */
  lemma ChosenKernelRuns(build: Build, cpu: Cpu, n: nat)
    ensures ChooseKernel(build, cpu, n).Fused? <==> RuntimeLanes(build, cpu) > 1
    ensures ChooseKernel(build, cpu, n).Fused? ==>
              && build.simd && !build.forcePortable
              && match ChooseKernel(build, cpu, n).isa {
                   case Neon4 => build.arch == Aarch64Le && n <= 4
                   case Neon8 => build.arch == Aarch64Le && n >= 5
                   case Avx2 => build.arch == X86_64 && build.std && cpu.avx2 && (n <= 8 || !cpu.avx512f)
                   case Avx512 => build.arch == X86_64 && build.std && cpu.avx2 && cpu.avx512f && n >= 9
                 }
  {
  }

  /** The reported width is the widest available register, or 1. */
  lemma RuntimeLanesIsWidest(build: Build, cpu: Cpu)
    ensures Available(build, cpu) == {} ==> RuntimeLanes(build, cpu) == 1
    ensures Available(build, cpu) != {} ==>
              && (forall isa :: isa in Available(build, cpu) ==> isa.Lanes() <= RuntimeLanes(build, cpu))
              && (exists isa :: isa in Available(build, cpu) && isa.Lanes() == RuntimeLanes(build, cpu))
  {
    assert Avx2 in Available(build, cpu) || Avx512 in Available(build, cpu) || Neon8 in Available(build, cpu)
        || Available(build, cpu) == {};
  }

  /**
   The policy behind the branches: a batch goes to the narrowest available register that holds all of it, and
   to the widest one when none does. Only a machine without any adapter hashes sequentially.
   */
  lemma ChoiceIsNarrowestFit(build: Build, cpu: Cpu, n: nat)
    ensures ChooseKernel(build, cpu, n).Fused? <==> Available(build, cpu) != {}
    ensures ChooseKernel(build, cpu, n).Fused? ==>
              var isa := ChooseKernel(build, cpu, n).isa;
              && isa in Available(build, cpu)
              && (forall a :: a in Available(build, cpu) && a.Lanes() >= n ==> n <= isa.Lanes() <= a.Lanes())
              && ((forall a :: a in Available(build, cpu) ==> a.Lanes() < n) ==>
                    forall a :: a in Available(build, cpu) ==> a.Lanes() <= isa.Lanes())
  {
    assert Neon4.Lanes() == 4 && Neon8.Lanes() == 8 && Avx2.Lanes() == 8 && Avx512.Lanes() == 16;
    assert Avx2 in Available(build, cpu) || Avx512 in Available(build, cpu) || Neon8 in Available(build, cpu)
        || Available(build, cpu) == {};
  }

  /** Every batch up to four registers of the reported width fits the kernel that is chosen for it. */
  lemma ChosenKernelFits(build: Build, cpu: Cpu, n: nat)
    requires 1 <= n <= 4 * RuntimeLanes(build, cpu)
    ensures ChooseKernel(build, cpu, n).Fused? ==>
              1 <= Groups(n, ChooseKernel(build, cpu, n).isa.Lanes()) <= 4
  {
    var choice := ChooseKernel(build, cpu, n);
    if choice.Fused? {
      match choice.isa
      case Neon4 =>
      case Neon8 =>
      case Avx2 =>
      case Avx512 =>
    }
  }

  /** The entry of one adapter: it may only be called where the build has it and the CPU was found to support it. */
  method FusedEntry(build: Build, cpu: Cpu, isa: Isa, inputs: seq<seq<Byte>>, outputs: array<seq<Byte>>, at: nat)
    returns (ghost used: Choice)
    requires isa in Available(build, cpu) && Fits(isa, inputs) && at + |inputs| <= outputs.Length
    modifies outputs
    ensures used == Fused(isa) && Stored(outputs[..], old(outputs[..]), inputs, at, |inputs|)
  {
    ghost var loop := HashEqualWide(build, isa, inputs, outputs, at);
    used := Fused(isa);
  }

  /** `sequential`: one scalar hash after the other. */
  method HashSequentially(build: Build, inputs: seq<seq<Byte>>, outputs: array<seq<Byte>>, at: nat)
    returns (ghost used: Choice)
    requires at + |inputs| <= outputs.Length
    modifies outputs
    ensures used == Sequential && Stored(outputs[..], old(outputs[..]), inputs, at, |inputs|)
  {
    hide Md5;
    used := Sequential;
    ghost var was := outputs[..];
    for i := 0 to |inputs|
      invariant Stored(outputs[..], was, inputs, at, i)
    {
      var d, route := Backend.Hash(build, inputs[i]);
      outputs[at + i] := d;
    }
  }

  /** `hash_equal_n`: `n` messages of one length into `n` consecutive slots, on the kernel of the choice. */
  method HashEqualN(build: Build, cpu: Cpu, inputs: seq<seq<Byte>>, outputs: array<seq<Byte>>, at: nat)
    returns (ghost used: Choice)
    requires EqualLengths(inputs) && at + |inputs| <= outputs.Length
    requires ChooseKernel(build, cpu, |inputs|).Fused? ==>
               Groups(|inputs|, ChooseKernel(build, cpu, |inputs|).isa.Lanes()) <= 4
    modifies outputs
    ensures Stored(outputs[..], old(outputs[..]), inputs, at, |inputs|)
    ensures |inputs| > 0 ==> used == ChooseKernel(build, cpu, |inputs|)
  {
    hide Md5, Groups;
    used := Sequential;
    if |inputs| == 0 {
      return;
    }
    match ChooseKernel(build, cpu, |inputs|)
    case Fused(isa) => used := FusedEntry(build, cpu, isa, inputs, outputs, at);
    case Sequential => used := HashSequentially(build, inputs, outputs, at);
  }

  // ---- The plan ----

  /** `pick_batch`: how many of `left` messages of one length go to the next kernel call; 0 means scalar. */
  function PickBatch(left: nat, max: nat, msgLen: nat): (batch: nat)
    ensures batch <= left && batch <= max * MAX_GROUPS
  {
    if left < 4 || max < 4 || msgLen < 32 then 0
    else if left < 8 && msgLen < 64 then 0
    else if left <= max * MAX_GROUPS then left
    else max * MAX_GROUPS
  }

  /** One unit of scheduled work: a scalar hash of slot `at`, or a kernel call on `n` slots from `at`. */
  datatype Call = ScalarHash(at: nat) | KernelCall(at: nat, n: nat) {
    function Width(): nat {
      if ScalarHash? then 1 else n
    }
  }

  /** The calls for `left` messages of length `len` from slot `at` on. */
  function RunCalls(at: nat, left: nat, max: nat, len: nat): seq<Call>
    decreases left
  {
    if left == 0 then []
    else
      var batch := PickBatch(left, max, len);
      if batch == 0 then [ScalarHash(at)] + RunCalls(at + 1, left - 1, max, len)
      else [KernelCall(at, batch)] + RunCalls(at + batch, left - batch, max, len)
  }

  /** The end of the run of equal lengths that `j` is in, when slots `i` to `j - 1` already are. */
  function RunEnd(lens: seq<nat>, i: nat, j: nat): (end: nat)
    requires i < j <= |lens|
    ensures j <= end <= |lens|
    decreases |lens| - j
  {
    if j < |lens| && lens[j] == lens[i] then RunEnd(lens, i, j + 1) else j
  }

  /** All calls from slot `i` on. */
  function Plan(lens: seq<nat>, i: nat, max: nat): seq<Call>
    requires i <= |lens|
    decreases |lens| - i
  {
    if i == |lens| then []
    else
      var end := RunEnd(lens, i, i + 1);
      RunCalls(i, end - i, max, lens[i]) + Plan(lens, end, max)
  }

  /** The run is maximal: all its lengths are equal and the next one, if any, differs. */
  lemma {:induction false} RunIsMaximal(lens: seq<nat>, i: nat, j: nat)
    requires i < j <= |lens| && (forall k :: i <= k < j ==> lens[k] == lens[i])
    ensures var end := RunEnd(lens, i, j);
            && (forall k :: i <= k < end ==> lens[k] == lens[i])
            && (end == |lens| || lens[end] != lens[i])
    decreases |lens| - j
  {
    if j < |lens| && lens[j] == lens[i] {
      RunIsMaximal(lens, i, j + 1);
    }
  }

  /** The calls cover slots `at` to `end - 1` in order, each exactly once. */
  predicate Tiles(calls: seq<Call>, at: nat, end: nat)
    decreases |calls|
  {
    if calls == [] then at == end
    else calls[0].at == at && calls[0].Width() > 0 && Tiles(calls[1..], at + calls[0].Width(), end)
  }

  lemma {:induction false} TilesJoin(p: seq<Call>, q: seq<Call>, at: nat, mid: nat, end: nat)
    requires Tiles(p, at, mid) && Tiles(q, mid, end)
    ensures Tiles(p + q, at, end)
    decreases |p|
  {
    if p == [] {
      assert p + q == q;
    } else {
      assert (p + q)[0] == p[0] && (p + q)[1..] == p[1..] + q;
      TilesJoin(p[1..], q, at + p[0].Width(), mid, end);
    }
  }

  lemma {:induction false} RunCallsTile(at: nat, left: nat, max: nat, len: nat)
    ensures Tiles(RunCalls(at, left, max, len), at, at + left)
    decreases left
  {
    if left != 0 {
      var batch := PickBatch(left, max, len);
      if batch == 0 {
        RunCallsTile(at + 1, left - 1, max, len);
      } else {
        RunCallsTile(at + batch, left - batch, max, len);
      }
    }
  }

  /** Every message is hashed exactly once, in input order, by one scalar hash or one kernel call. */
  lemma {:induction false} PlanTiles(lens: seq<nat>, i: nat, max: nat)
    requires i <= |lens|
    ensures Tiles(Plan(lens, i, max), i, |lens|)
    decreases |lens| - i
  {
    if i < |lens| {
      var end := RunEnd(lens, i, i + 1);
      RunCallsTile(i, end - i, max, lens[i]);
      PlanTiles(lens, end, max);
      TilesJoin(RunCalls(i, end - i, max, lens[i]), Plan(lens, end, max), i, end, |lens|);
    }
  }

  // ---- Work accounting ----

  function Scalars(calls: seq<Call>): nat {
    if calls == [] then 0 else (if calls[0].ScalarHash? then 1 else 0) + Scalars(calls[1..])
  }

  function KernelCalls(calls: seq<Call>): nat {
    if calls == [] then 0 else (if calls[0].KernelCall? then 1 else 0) + KernelCalls(calls[1..])
  }

  /** The smallest batch worth a kernel call at this length. */
  function Threshold(len: nat): nat {
    if len >= 64 then 4 else 8
  }

  lemma {:induction false} AllScalar(at: nat, left: nat, max: nat, len: nat)
    requires len < 32 || max < 4 || left < Threshold(len)
    ensures Scalars(RunCalls(at, left, max, len)) == left && KernelCalls(RunCalls(at, left, max, len)) == 0
    decreases left
  {
    if left != 0 {
      AllScalar(at + 1, left - 1, max, len);
    }
  }

  /**
   A run of `m` messages from 32 bytes on: full batches of four registers, then one more kernel call for a
   remainder of at least the threshold; only a smaller remainder is hashed by the scalar backend.
   */
  lemma {:induction false} RunAccounting(at: nat, m: nat, max: nat, len: nat)
    requires max >= 4 && len >= 32
    ensures var b := 4 * max;
            var rest, calls := m % b, RunCalls(at, m, max, len);
            && Scalars(calls) == (if rest < Threshold(len) then rest else 0)
            && KernelCalls(calls) == m / b + (if rest < Threshold(len) then 0 else 1)
    decreases m
  {
    var b := max * MAX_GROUPS;
    if m < Threshold(len) {
      AllScalar(at, m, max, len);
      SmallQuotient(m, b);
    } else if m <= b {
      assert RunCalls(at + m, 0, max, len) == [];
      assert RunCalls(at, m, max, len) == [KernelCall(at, m)];
      if m < b { SmallQuotient(m, b); } else { WholeQuotient(b); }
    } else {
      RunAccounting(at + b, m - b, max, len);
      QuotientStep(m, b);
    }
  }

  lemma SmallQuotient(m: nat, b: nat)
    requires m < b
    ensures m / b == 0 && m % b == m
  {
  }

  lemma WholeQuotient(b: nat)
    requires b > 0
    ensures b / b == 1 && b % b == 0
  {
  }

  lemma QuotientStep(m: nat, b: nat)
    requires 0 < b <= m
    ensures m / b == (m - b) / b + 1 && m % b == (m - b) % b
  {
    var q, r := (m - b) / b + 1, (m - b) % b;
    assert m - b == (q - 1) * b + r;
    assert m == q * b + r;
    Frame.ResidueOf(q, r, b);
  }

  lemma {:induction false} ScalarCalls(at: nat, m: nat, max: nat, len: nat)
    requires len < 32 || max < 4 || m < Threshold(len)
    ensures |RunCalls(at, m, max, len)| == m
    ensures forall k :: 0 <= k < m ==> RunCalls(at, m, max, len)[k] == ScalarHash(at + k)
    decreases m
  {
    if m != 0 {
      ScalarCalls(at + 1, m - 1, max, len);
    }
  }

  /**
   `q` kernel calls on `b` slots each from slot `at` on, then the remainder `r`: one kernel call from the
   threshold `t` on, single scalar hashes below it.
   */
  predicate Shaped(calls: seq<Call>, at: nat, b: nat, q: nat, r: nat, t: nat) {
    && |calls| == q + (if r < t then r else 1)
    && (forall k :: 0 <= k < q ==> calls[k] == KernelCall(at + k * b, b))
    && (r >= t ==> calls[q] == KernelCall(at + q * b, r))
    && (r < t ==> forall k :: q <= k < q + r ==> calls[k] == ScalarHash(at + q * b + (k - q)))
  }

  /** A run of at least four registers starts with one full batch. */
  lemma RunHead(at: nat, m: nat, max: nat, len: nat)
    requires max >= 4 && len >= 32 && m >= 4 * max
    ensures RunCalls(at, m, max, len) == [KernelCall(at, 4 * max)] + RunCalls(at + 4 * max, m - 4 * max, max, len)
  {
  }

  lemma ShapeStep(calls: seq<Call>, rest: seq<Call>, at: nat, b: nat, q: nat, r: nat, t: nat)
    requires q > 0 && Shaped(rest, at + b, b, q - 1, r, t)
    requires calls == [KernelCall(at, b)] + rest
    ensures Shaped(calls, at, b, q, r, t)
  {
    forall k | 0 < k < |calls| ensures calls[k] == rest[k - 1] { }
    forall k | 0 < k < q ensures calls[k] == KernelCall(at + k * b, b) {
      NextMultiple(k, b);
    }
    NextMultiple(q, b);
  }

  lemma RemainderShape(at: nat, r: nat, max: nat, len: nat)
    requires max >= 4 && len >= 32 && r < 4 * max
    ensures Shaped(RunCalls(at, r, max, len), at, 4 * max, 0, r, Threshold(len))
  {
    hide RunCalls;
    if r >= Threshold(len) {
      RunInOneCall(at, r, max, len);
    } else {
      ScalarCalls(at, r, max, len);
    }
  }

  /**
   The calls of a run of `m` messages from 32 bytes on, one by one: with `m == q * b + r` for batches of four
   registers, `q` full batches from the left, then the remainder.
   */
  lemma {:induction false} RunShape(at: nat, m: nat, max: nat, len: nat, b: nat, q: nat, r: nat)
    requires max >= 4 && len >= 32 && b == 4 * max && m == q * b + r && r < b
    ensures Shaped(RunCalls(at, m, max, len), at, b, q, r, if len >= 64 then 4 else 8)
    decreases q
  {
    hide RunCalls, Shaped;
    if q == 0 {
      RemainderShape(at, r, max, len);
    } else {
      OneBatchLess(m, b, q, r);
      RunHead(at, m, max, len);
      RunShape(at + b, m - b, max, len, b, q - 1, r);
      ShapeStep(RunCalls(at, m, max, len), RunCalls(at + b, m - b, max, len), at, b, q, r, Threshold(len));
    }
  }

  lemma OneBatchLess(m: nat, b: nat, q: nat, r: nat)
    requires q > 0 && m == q * b + r
    ensures m >= b && m - b == (q - 1) * b + r
  {
    NextMultiple(q, b);
    assert (q - 1) * b >= 0;
  }

  lemma NextMultiple(k: nat, b: nat)
    requires k > 0
    ensures b + (k - 1) * b == k * b
  {
  }

  /** How many messages the scalar backend hashes and how many kernel calls are made. */
  datatype Work = Work(scalars: nat, kernelCalls: nat) {
    function Plus(w: Work): Work {
      Work(scalars + w.scalars, kernelCalls + w.kernelCalls)
    }
  }

  function WorkOf(calls: seq<Call>): Work {
    Work(Scalars(calls), KernelCalls(calls))
  }

  /** What `m` neighbours of one length cost, by quotient and remainder. */
  function RunWork(m: nat, max: nat, len: nat): Work {
    if max < 4 || len < 32 then Work(m, 0)
    else
      var b := max * MAX_GROUPS;
      if m % b < Threshold(len) then Work(m % b, m / b) else Work(0, m / b + 1)
  }

  lemma RunWorkOf(at: nat, m: nat, max: nat, len: nat)
    ensures WorkOf(RunCalls(at, m, max, len)) == RunWork(m, max, len)
  {
    hide RunCalls, Scalars, KernelCalls;
    if max < 4 || len < 32 {
      AllScalar(at, m, max, len);
    } else {
      RunAccounting(at, m, max, len);
    }
  }

  /** The costs of the maximal runs from slot `i` on, added up. */
  function RunsWork(lens: seq<nat>, i: nat, max: nat): Work
    requires i <= |lens|
    decreases |lens| - i
  {
    if i == |lens| then Work(0, 0)
    else
      var end := RunEnd(lens, i, i + 1);
      RunWork(end - i, max, lens[i]).Plus(RunsWork(lens, end, max))
  }

  lemma NoCalls()
    ensures WorkOf([]) == Work(0, 0)
  {
  }

  /** A whole plan costs what its maximal runs cost. */
  lemma {:induction false} PlanAccounting(lens: seq<nat>, i: nat, max: nat)
    requires i <= |lens|
    ensures WorkOf(Plan(lens, i, max)) == RunsWork(lens, i, max)
    decreases |lens| - i
  {
    hide RunWork, RunCalls, RunEnd, Plan, Scalars, KernelCalls;
    if i == |lens| {
      PlanEnd(lens, max);
      NoCalls();
    } else {
      var end := RunEnd(lens, i, i + 1);
      PlanStep(lens, i, max);
      RunWorkOf(i, end - i, max, lens[i]);
      PlanAccounting(lens, end, max);
      KernelCallsJoin(RunCalls(i, end - i, max, lens[i]), Plan(lens, end, max));
    }
  }

  /** The pairs of the scalar pair path, counted over the maximal runs. */
  function RunsPairs(lens: seq<nat>, i: nat): nat
    requires i <= |lens|
    decreases |lens| - i
  {
    if i == |lens| then 0
    else
      var end := RunEnd(lens, i, i + 1);
      (if lens[i] >= 64 then (end - i) / 2 else 0) + RunsPairs(lens, end)
  }

  lemma {:induction false} PairsInRun(lens: seq<nat>, i: nat, end: nat)
    requires i < end <= |lens| && (forall k :: i <= k < end ==> lens[k] == lens[i])
    requires end == |lens| || lens[end] != lens[i]
    ensures |Multibuf.PairPlan(lens, i)| == (if lens[i] >= 64 then (end - i) / 2 else 0) + |Multibuf.PairPlan(lens, end)|
    decreases end - i
  {
    hide Multibuf.PairPlan;
    Multibuf.PairPlanStep(lens, i);
    Multibuf.PairPlanStep(lens, end);
    if lens[i] >= 64 && i + 2 < end {
      PairsInRun(lens, i + 2, end);
    } else if lens[i] < 64 && i + 1 < end {
      PairsInRun(lens, i + 1, end);
    }
  }

  /** Pairing from the left loses nothing: every maximal run from 64 bytes on gives half its length in pairs. */
  lemma {:induction false} PairAccounting(lens: seq<nat>, i: nat)
    requires i <= |lens|
    ensures |Multibuf.PairPlan(lens, i)| == RunsPairs(lens, i)
    decreases |lens| - i
  {
    hide Multibuf.PairPlan, RunEnd;
    if i == |lens| {
      Multibuf.PairPlanStep(lens, i);
    } else {
      var end := RunEnd(lens, i, i + 1);
      RunIsMaximal(lens, i, i + 1);
      PairsInRun(lens, i, end);
      PairAccounting(lens, end);
    }
  }

  /**
   The README of the modelled repository promises vectors to every run of at least four messages of at least 32 bytes. That holds for a
   run if and only if it is not four to seven messages of less than 64 bytes; those are all hashed by the
   scalar backend.
   */
  lemma FourMessageRule(at: nat, m: nat, max: nat, len: nat)
    requires max >= 4 && m >= 4 && len >= 32
    ensures UsesKernel(RunCalls(at, m, max, len)) <==> !(m < 8 && len < 64)
    ensures m < 8 && len < 64 ==> Scalars(RunCalls(at, m, max, len)) == m
  {
    RunUsesKernelIff(at, m, max, len);
    if m < 8 && len < 64 {
      AllScalar(at, m, max, len);
    }
  }

  /** A run that fits one call goes to the kernel whole; there is no scalar tail. */
  lemma RunInOneCall(at: nat, m: nat, max: nat, len: nat)
    requires max >= 4 && len >= 32 && Threshold(len) <= m <= 4 * max
    ensures RunCalls(at, m, max, len) == [KernelCall(at, m)]
  {
    assert RunCalls(at + m, 0, max, len) == [];
  }

  /** How many messages the kernel calls hash. */
  function KernelMessages(calls: seq<Call>): nat {
    if calls == [] then 0 else (if calls[0].KernelCall? then calls[0].n else 0) + KernelMessages(calls[1..])
  }

  /** Nothing is hashed twice or dropped: scalar hashes and kernel messages add up to the slots covered. */
  lemma {:induction false} TilesCount(calls: seq<Call>, at: nat, end: nat)
    requires Tiles(calls, at, end)
    ensures at <= end && Scalars(calls) + KernelMessages(calls) == end - at
    ensures KernelCalls(calls) == 0 ==> KernelMessages(calls) == 0
    decreases |calls|
  {
    if calls != [] {
      TilesCount(calls[1..], at + calls[0].Width(), end);
    }
  }

  /** `t` neighbours from `i` on share a length. */
  predicate EqualWindow(lens: seq<nat>, i: nat, t: nat) {
    i + t <= |lens| && forall k :: i <= k < i + t ==> lens[k] == lens[i]
  }

  /** A kernel call of the plan is on neighbours of one length, of a size the policy allows. */
  predicate CallFits(c: Call, lens: seq<nat>, max: nat) {
    c.KernelCall? ==>
      && c.at < |lens| && EqualWindow(lens, c.at, c.n)
      && lens[c.at] >= 32 && Threshold(lens[c.at]) <= c.n <= 4 * max
  }

  lemma {:induction false} RunCallsFit(lens: seq<nat>, at: nat, left: nat, max: nat)
    requires left == 0 || EqualWindow(lens, at, left)
    ensures left > 0 ==> forall k :: 0 <= k < |RunCalls(at, left, max, lens[at])| ==> CallFits(RunCalls(at, left, max, lens[at])[k], lens, max)
    decreases left
  {
    if left > 0 {
      var batch := PickBatch(left, max, lens[at]);
      var w := if batch == 0 then 1 else batch;
      if w < left {
        assert lens[at + w] == lens[at];
        RunCallsFit(lens, at + w, left - w, max);
      }
      assert EqualWindow(lens, at, w);
    }
  }

  lemma {:induction false} PlanCallsFit(lens: seq<nat>, i: nat, max: nat)
    requires i <= |lens|
    ensures forall k :: 0 <= k < |Plan(lens, i, max)| ==> CallFits(Plan(lens, i, max)[k], lens, max)
    decreases |lens| - i
  {
    hide CallFits, RunCalls;
    if i < |lens| {
      var end := RunEnd(lens, i, i + 1);
      RunIsMaximal(lens, i, i + 1);
      RunCallsFit(lens, i, end - i, max);
      PlanCallsFit(lens, end, max);
    }
  }

  /** Every kernel call the scheduler makes runs a fused kernel with one to four groups: no fallback, no unreachable arm. */
  lemma ScheduledCallsFit(build: Build, cpu: Cpu, lens: seq<nat>, k: nat)
    requires RuntimeLanes(build, cpu) > 1
    requires k < |Plan(lens, 0, RuntimeLanes(build, cpu))| && Plan(lens, 0, RuntimeLanes(build, cpu))[k].KernelCall?
    ensures var n := Plan(lens, 0, RuntimeLanes(build, cpu))[k].n;
            && ChooseKernel(build, cpu, n).Fused?
            && 1 <= Groups(n, ChooseKernel(build, cpu, n).isa.Lanes()) <= 4
  {
    PlanCallsFit(lens, 0, RuntimeLanes(build, cpu));
    ChosenKernelFits(build, cpu, Plan(lens, 0, RuntimeLanes(build, cpu))[k].n);
  }

  // ---- When the vector kernels are used at all ----

  /** Four neighbours of at least 64 bytes, or eight of at least 32, share a length. */
  ghost predicate WorthVectors(lens: seq<nat>, from: nat) {
    exists i :: from <= i < |lens| && lens[i] >= 32 && EqualWindow(lens, i, Threshold(lens[i]))
  }

  predicate UsesKernel(calls: seq<Call>) {
    KernelCalls(calls) > 0
  }

  lemma {:induction false} KernelCallsJoin(p: seq<Call>, q: seq<Call>)
    ensures KernelCalls(p + q) == KernelCalls(p) + KernelCalls(q)
    ensures Scalars(p + q) == Scalars(p) + Scalars(q)
    decreases |p|
  {
    if p == [] {
      assert p + q == q;
    } else {
      assert (p + q)[0] == p[0] && (p + q)[1..] == p[1..] + q;
      KernelCallsJoin(p[1..], q);
    }
  }

  /** With usable lanes the plan contains a kernel call if and only if some window is worth it. */
  lemma {:induction false} KernelsUsedIff(lens: seq<nat>, from: nat, max: nat)
    requires from <= |lens| && max >= 4
    ensures UsesKernel(Plan(lens, from, max)) <==> WorthVectors(lens, from)
    decreases |lens| - from
  {
    if from < |lens| {
      var end := RunEnd(lens, from, from + 1);
      var calls := RunCalls(from, end - from, max, lens[from]);
      RunIsMaximal(lens, from, from + 1);
      KernelsUsedIff(lens, end, max);
      KernelCallsJoin(calls, Plan(lens, end, max));
      RunUsesKernelIff(from, end - from, max, lens[from]);
      WindowsOfRun(lens, from, end);
    }
  }

  lemma RunUsesKernelIff(at: nat, m: nat, max: nat, len: nat)
    requires max >= 4
    ensures UsesKernel(RunCalls(at, m, max, len)) <==> len >= 32 && m >= Threshold(len)
  {
    if len < 32 || m < Threshold(len) {
      AllScalar(at, m, max, len);
    } else {
      RunAccounting(at, m, max, len);
      var b := max * MAX_GROUPS;
      if m < b { SmallQuotient(m, b); } else { QuotientStep(m, b); }
    }
  }

  /** An equal window from `from` on either lies in the first run or starts behind it. */
  lemma WindowsOfRun(lens: seq<nat>, from: nat, end: nat)
    requires from < end <= |lens|
    requires forall k :: from <= k < end ==> lens[k] == lens[from]
    requires end == |lens| || lens[end] != lens[from]
    ensures WorthVectors(lens, from)
            <==> (lens[from] >= 32 && end - from >= Threshold(lens[from])) || WorthVectors(lens, end)
  {
    if lens[from] >= 32 && end - from >= Threshold(lens[from]) {
      assert EqualWindow(lens, from, Threshold(lens[from]));
    }
    if WorthVectors(lens, from) && !WorthVectors(lens, end) {
      var i :| from <= i < |lens| && lens[i] >= 32 && EqualWindow(lens, i, Threshold(lens[i]));
      assert i < end;
      var t := Threshold(lens[i]);
      if i + t > end {
        assert lens[end] == lens[i];
      }
    }
  }

  // ---- The scheduler ----

  /** `hash_many_dispatch`. `calls` records the units of work it issues when SIMD is usable. */
  method HashManyDispatch(build: Build, cpu: Cpu, inputs: seq<seq<Byte>>, outputs: array<seq<Byte>>)
    returns (outcome: Outcome, ghost calls: seq<Call>)
    modifies outputs
    ensures outcome == if outputs.Length < |inputs| then Panicked else Returned
    ensures outcome == Panicked ==> outputs[..] == old(outputs[..])
    ensures outcome == Returned ==> Stored(outputs[..], old(outputs[..]), inputs, 0, |inputs|)
    ensures outcome == Returned && RuntimeLanes(build, cpu) > 1 ==>
              calls == Plan(Lengths(inputs), 0, RuntimeLanes(build, cpu))
    ensures RuntimeLanes(build, cpu) <= 1 ==> calls == []
  {
    hide Md5, Stored, Plan, RunCalls, RunEnd, Groups, ChooseKernel, PickBatch;
    calls := [];
    if outputs.Length < |inputs| {
      return Panicked, calls;
    }
    var max := RuntimeLanes(build, cpu);
    if max <= 1 {
      ghost var pairs;
      outcome, pairs := Multibuf.HashManyDispatch(build, inputs, outputs);
      return;
    }
    ghost var was, lens := outputs[..], Lengths(inputs);
    NothingStored(was, inputs);
    var i := 0;
    while i < |inputs|
      invariant i <= |inputs| && outputs.Length == |was|
      invariant Stored(outputs[..], was, inputs, 0, i)
      invariant calls + Plan(lens, i, max) == Plan(lens, 0, max)
    {
      var len0 := |inputs[i]|;
      var run := 1;
      while i + run < |inputs| && |inputs[i + run]| == len0
        invariant 1 <= run && i + run <= |inputs|
        invariant outputs.Length == |was| && Stored(outputs[..], was, inputs, 0, i)
        invariant forall k :: i <= k < i + run ==> |inputs[k]| == len0
        invariant RunEnd(lens, i, i + run) == RunEnd(lens, i, i + 1)
      {
        RunEndStep(lens, i, i + run);
        run := run + 1;
      }
      RunEndStop(lens, i, i + run);
      ghost var runCalls := HashRun(build, cpu, inputs, outputs, i, run, was);
      PlanStep(lens, i, max);
      calls := calls + runCalls;
      i := i + run;
    }
    PlanEnd(lens, max);
    outcome := Returned;
  }

  /** The inner loop of the scheduler: one run of equal lengths. */
  method HashRun(build: Build, cpu: Cpu, inputs: seq<seq<Byte>>, outputs: array<seq<Byte>>, i: nat, run: nat,
                 ghost was: seq<seq<Byte>>) returns (ghost calls: seq<Call>)
    requires run >= 1 && i + run <= |inputs| <= outputs.Length && RuntimeLanes(build, cpu) > 1
    requires forall k :: i <= k < i + run ==> |inputs[k]| == |inputs[i]|
    requires Stored(outputs[..], was, inputs, 0, i)
    modifies outputs
    ensures Stored(outputs[..], was, inputs, 0, i + run)
    ensures calls == RunCalls(i, run, RuntimeLanes(build, cpu), |inputs[i]|)
  {
    hide Md5, Stored, RunCalls, RuntimeLanes;
    ghost var max, len0 := RuntimeLanes(build, cpu), |inputs[i]|;
    var done := 0;
    calls := [];
    RunCallsEnd(i + run, max, len0);
    while done < run
      invariant done <= run
      invariant Stored(outputs[..], was, inputs, 0, i + done)
      invariant calls + RunCalls(i + done, run - done, max, len0) == RunCalls(i, run, max, len0)
    {
      ghost var rest := RunCalls(i + done, run - done, max, len0);
      var n, call := HashBatch(build, cpu, inputs, outputs, i + done, run - done, was);
      assert calls + rest == calls + [call] + rest[1..];
      calls := calls + [call];
      done := done + n;
    }
  }

  /** One turn of the inner loop: the next batch of a run, or its next message alone. */
  method HashBatch(build: Build, cpu: Cpu, inputs: seq<seq<Byte>>, outputs: array<seq<Byte>>, at: nat, left: nat,
                   ghost was: seq<seq<Byte>>) returns (n: nat, ghost call: Call)
    requires left >= 1 && at + left <= |inputs| <= outputs.Length && RuntimeLanes(build, cpu) > 1
    requires forall k :: at <= k < at + left ==> |inputs[k]| == |inputs[at]|
    requires Stored(outputs[..], was, inputs, 0, at)
    modifies outputs
    ensures 1 <= n <= left && Stored(outputs[..], was, inputs, 0, at + n)
    ensures RunCalls(at, left, RuntimeLanes(build, cpu), |inputs[at]|)
         == [call] + RunCalls(at + n, left - n, RuntimeLanes(build, cpu), |inputs[at]|)
  {
    hide Md5, Stored, RunCalls, Groups, ChooseKernel, RuntimeLanes, PickBatch, EqualLengths;
    var max, len0 := RuntimeLanes(build, cpu), |inputs[at]|;
    var batch := PickBatch(left, max, len0);
    RunCallsStep(at, left, max, len0);
    ghost var mid := outputs[..];
    if batch == 0 {
      var d, route := Backend.Hash(build, inputs[at]);
      outputs[at] := d;
      StoredSlot(mid, was, inputs, 0, at, d);
      assert outputs[..] == mid[at := d];
      return 1, ScalarHash(at);
    }
    ChosenKernelFits(build, cpu, batch);
    SliceEqual(inputs, at, at + batch, len0);
    ghost var used := HashEqualN(build, cpu, inputs[at..at + batch], outputs, at);
    StoredNext(outputs[..], mid, was, inputs, at, batch);
    return batch, KernelCall(at, batch);
  }

  lemma SliceEqual(inputs: seq<seq<Byte>>, lo: nat, hi: nat, len: nat)
    requires lo <= hi <= |inputs| && (forall k :: lo <= k < hi ==> |inputs[k]| == len)
    ensures EqualLengths(inputs[lo..hi])
  {
  }

  lemma RunCallsStep(at: nat, left: nat, max: nat, len: nat)
    requires left > 0
    ensures var batch := PickBatch(left, max, len);
            RunCalls(at, left, max, len)
            == if batch == 0 then [ScalarHash(at)] + RunCalls(at + 1, left - 1, max, len)
               else [KernelCall(at, batch)] + RunCalls(at + batch, left - batch, max, len)
  {
  }

  lemma RunCallsEnd(at: nat, max: nat, len: nat)
    ensures RunCalls(at, 0, max, len) == []
  {
  }

  lemma RunEndStep(lens: seq<nat>, i: nat, j: nat)
    requires i < j < |lens| && lens[j] == lens[i]
    ensures RunEnd(lens, i, j) == RunEnd(lens, i, j + 1)
  {
  }

  lemma RunEndStop(lens: seq<nat>, i: nat, j: nat)
    requires i < j <= |lens| && (j < |lens| ==> lens[j] != lens[i])
    ensures RunEnd(lens, i, j) == j
  {
  }

  lemma PlanStep(lens: seq<nat>, i: nat, max: nat)
    requires i < |lens|
    ensures var end := RunEnd(lens, i, i + 1);
            Plan(lens, i, max) == RunCalls(i, end - i, max, lens[i]) + Plan(lens, end, max)
  {
  }

  lemma PlanEnd(lens: seq<nat>, max: nat)
    ensures Plan(lens, |lens|, max) == []
  {
  }
}
