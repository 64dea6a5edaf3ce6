/** `Md5Engine::hash_many` and `hash_many_grouped`, `src/engine.rs`. */
module Engine {
  import opened Words
  import opened Rfc1321
  import opened Kernels
  import opened Batch
  import opened Dispatch

  // ---- Equal neighbours ----

  /** `has_simd_sized_adjacent_run`: true exactly when four neighbours share a length. */
  method HasSimdSizedAdjacentRun(inputs: seq<seq<Byte>>) returns (found: bool)
    ensures found <==> exists i :: 0 <= i && EqualWindow(Lengths(inputs), i, 4)
  {
    ghost var lens := Lengths(inputs);
    var run := 1;
    if |inputs| == 0 {
      return false;
    }
    for k := 1 to |inputs|
      invariant 1 <= run <= 3 && run <= k
      invariant forall h :: k - run <= h < k ==> lens[h] == lens[k - 1]
      invariant run < k && run < 3 ==> lens[k - run - 1] != lens[k - 1]
      invariant forall i :: 0 <= i && i + 4 <= k ==> !EqualWindow(lens, i, 4)
    {
      if |inputs[k - 1]| == |inputs[k]| {
        run := run + 1;
        if run >= 4 {
          assert EqualWindow(lens, k - 3, 4);
          return true;
        }
      } else {
        run := 1;
      }
    }
    return false;
  }

  // ---- Sorting indices by length ----

  /** `lens` read in the order of the indices. */
  function Pick(lens: seq<nat>, order: seq<nat>): (s: seq<nat>)
    requires forall i :: 0 <= i < |order| ==> order[i] < |lens|
    ensures |s| == |order|
  {
    seq(|order|, i requires 0 <= i < |order| => lens[order[i]])
  }

  predicate Sorted(s: seq<nat>) {
    forall i, j :: 0 <= i < j < |s| ==> s[i] <= s[j]
  }

  /** `order` is a permutation of its own indices and `pos` is its inverse. */
  predicate Inverse(order: seq<nat>, pos: seq<nat>) {
    && |pos| == |order|
    && (forall i :: 0 <= i < |order| ==> order[i] < |order| && pos[order[i]] == i)
    && (forall k :: 0 <= k < |order| ==> pos[k] < |order| && order[pos[k]] == k)
  }

  lemma PickSwap(lens: seq<nat>, order: seq<nat>, j: nat)
    requires 0 < j < |order| && (forall i :: 0 <= i < |order| ==> order[i] < |lens|)
    ensures var swapped := order[j - 1 := order[j]][j := order[j - 1]];
            && (forall i :: 0 <= i < |order| ==> swapped[i] < |lens|)
            && multiset(Pick(lens, swapped)) == multiset(Pick(lens, order))
  {
    var swapped := order[j - 1 := order[j]][j := order[j - 1]];
    var s := Pick(lens, order);
    assert Pick(lens, swapped) == s[j - 1 := s[j]][j := s[j - 1]];
  }

  /** Everything but the element at `j` is in order up to `i`; the indices still permute. */
  predicate Inserting(lens: seq<nat>, order: seq<nat>, pos: seq<nat>, i: nat, j: nat) {
    && j <= i < |order| == |lens| && Inverse(order, pos)
    && multiset(Pick(lens, order)) == multiset(lens)
    && (forall a, b :: 0 <= a < b <= i && b != j ==> Pick(lens, order)[a] <= Pick(lens, order)[b])
  }

  lemma InsertStep(lens: seq<nat>, order: seq<nat>, pos: seq<nat>, i: nat, j: nat)
    requires 0 < j && Inserting(lens, order, pos, i, j) && lens[order[j - 1]] > lens[order[j]]
    ensures Inserting(lens, order[j - 1 := order[j]][j := order[j - 1]], pos[order[j] := j - 1][order[j - 1] := j], i, j - 1)
  {
    PickSwap(lens, order, j);
    var swapped := order[j - 1 := order[j]][j := order[j - 1]];
    var s, t := Pick(lens, order), Pick(lens, swapped);
    assert t[j - 1] == s[j] && t[j] == s[j - 1];
    assert forall a :: 0 <= a < |order| && a != j && a != j - 1 ==> t[a] == s[a];
  }

  lemma InsertEnd(lens: seq<nat>, order: seq<nat>, pos: seq<nat>, i: nat, j: nat)
    requires Inserting(lens, order, pos, i, j) && (j == 0 || lens[order[j - 1]] <= lens[order[j]])
    ensures Sorted(Pick(lens, order)[..i + 1])
  {
    var s := Pick(lens, order);
    var t := s[..i + 1];
    forall a, b | 0 <= a < b < |t| ensures t[a] <= t[b] {
      if b == j && a < j - 1 {
        assert s[a] <= s[j - 1];
      }
    }
  }

  /** The inner loop: moves index `i` down to its place. */
  method Insert(inputs: seq<seq<Byte>>, order: array<nat>, i: nat, ghost pos: seq<nat>) returns (ghost pos': seq<nat>)
    requires i < order.Length && order.Length == |inputs| && Inverse(order[..], pos)
    requires Sorted(Pick(Lengths(inputs), order[..])[..i])
    requires multiset(Pick(Lengths(inputs), order[..])) == multiset(Lengths(inputs))
    modifies order
    ensures Inverse(order[..], pos')
    ensures Sorted(Pick(Lengths(inputs), order[..])[..i + 1])
    ensures multiset(Pick(Lengths(inputs), order[..])) == multiset(Lengths(inputs))
  {
    ghost var lens := Lengths(inputs);
    pos' := pos;
    var j: nat := i;
    assert Inserting(lens, order[..], pos', i, j) by {
      ghost var s := Pick(lens, order[..]);
      forall a, b | 0 <= a < b <= i && b != j ensures s[a] <= s[b] {
        assert s[..i][a] <= s[..i][b];
      }
    }
    while j > 0 && |inputs[order[j - 1]]| > |inputs[order[j]]|
      invariant Inserting(lens, order[..], pos', i, j)
    {
      ghost var was := order[..];
      InsertStep(lens, was, pos', i, j);
      pos' := pos'[order[j] := j - 1][order[j - 1] := j];
      order[j - 1], order[j] := order[j], order[j - 1];
      assert order[..] == was[j - 1 := was[j]][j := was[j - 1]];
      j := j - 1;
    }
    InsertEnd(lens, order[..], pos', i, j);
  }

  /**
   Sorts the indices by length. The source uses an unstable library sort; nothing below depends on more
   than what is promised here: some length-sorted permutation.
   */
  method SortByLength(inputs: seq<seq<Byte>>) returns (order: array<nat>, ghost pos: seq<nat>)
    ensures fresh(order) && order.Length == |inputs| && Inverse(order[..], pos)
    ensures Sorted(Pick(Lengths(inputs), order[..]))
    ensures multiset(Pick(Lengths(inputs), order[..])) == multiset(Lengths(inputs))
  {
    ghost var lens := Lengths(inputs);
    order := new nat[|inputs|](i => i);
    pos := order[..];
    assert Pick(lens, order[..]) == lens;
    for i := 0 to |inputs|
      invariant Inverse(order[..], pos)
      invariant Sorted(Pick(lens, order[..])[..i])
      invariant multiset(Pick(lens, order[..])) == multiset(lens)
    {
      pos := Insert(inputs, order, i, pos);
    }
    assert Pick(lens, order[..])[..|inputs|] == Pick(lens, order[..]);
  }

  // ---- The longest run ----

  /** After `k` sorted lengths: `run` counts the last one, `maxRun` the commonest one. */
  ghost predicate Tallied(s: seq<nat>, k: nat, run: nat, maxRun: nat, commonest: nat) {
    && 1 <= k <= |s| && 1 <= run <= maxRun
    && multiset(s[..k])[s[k - 1]] == run
    && multiset(s[..k])[commonest] == maxRun
    && forall x :: multiset(s[..k])[x] <= maxRun
  }

  lemma TallyNext(s: seq<nat>, k: nat, run: nat, maxRun: nat, commonest: nat)
    requires Sorted(s) && k < |s| && Tallied(s, k, run, maxRun, commonest)
    ensures var run' := if s[k - 1] == s[k] then run + 1 else 1;
            if run' > maxRun then Tallied(s, k + 1, run', run', s[k]) else Tallied(s, k + 1, run', maxRun, commonest)
  {
    var p, q := multiset(s[..k]), multiset(s[..k + 1]);
    assert s[..k + 1] == s[..k] + [s[k]];
    assert q == p[s[k] := p[s[k]] + 1];
    if s[k - 1] != s[k] {
      assert s[k] !in s[..k];
      assert p[s[k]] == 0;
      assert p[s[k - 1]] >= 1 && p[s[k - 1]] <= maxRun;
    }
  }

  lemma TallyStart(s: seq<nat>)
    requires |s| >= 1
    ensures Tallied(s, 1, 1, 1, s[0])
  {
    assert s[..1] == [s[0]];
  }

  lemma TallyBounds(s: seq<nat>, k: nat, run: nat, maxRun: nat, commonest: nat)
    requires Tallied(s, k, run, maxRun, commonest)
    ensures 1 <= run <= maxRun
  {
  }

  lemma TallyEnd(s: seq<nat>, run: nat, maxRun: nat, commonest: nat)
    requires Tallied(s, |s|, run, maxRun, commonest)
    ensures multiset(s)[commonest] == maxRun && forall x :: multiset(s)[x] <= maxRun
  {
    assert s[..|s|] == s;
  }

  /** The run counter over the sorted order finds the largest multiplicity of any length. */
  method MaxRun(inputs: seq<seq<Byte>>, order: array<nat>) returns (maxRun: nat, ghost commonest: nat)
    requires |inputs| >= 1 && order.Length == |inputs|
    requires forall i :: 0 <= i < order.Length ==> order[i] < |inputs|
    requires Sorted(Pick(Lengths(inputs), order[..]))
    ensures forall x :: multiset(Pick(Lengths(inputs), order[..]))[x] <= maxRun
    ensures multiset(Pick(Lengths(inputs), order[..]))[commonest] == maxRun
  {
    hide Tallied, Sorted;
    ghost var s := Pick(Lengths(inputs), order[..]);
    maxRun := 1;
    var run := 1;
    commonest := s[0];
    TallyStart(s);
    for k := 1 to |inputs|
      invariant Tallied(s, k, run, maxRun, commonest)
    {
      TallyNext(s, k, run, maxRun, commonest);
      TallyBounds(s, k, run, maxRun, commonest);
      if |inputs[order[k - 1]]| == |inputs[order[k]]| {
        run := run + 1;
        if run > maxRun {
          maxRun := run;
          commonest := s[k];
        }
      } else {
        run := 1;
      }
    }
    TallyEnd(s, run, maxRun, commonest);
  }

  // ---- Grouped hashing ----

  /** `hash_many`. */
  method HashMany(build: Build, cpu: Cpu, inputs: seq<seq<Byte>>, outputs: array<seq<Byte>>)
    returns (outcome: Outcome, ghost calls: seq<Call>)
    modifies outputs
    ensures outcome == if outputs.Length < |inputs| then Panicked else Returned
    ensures outcome == Panicked ==> outputs[..] == old(outputs[..])
    ensures outcome == Returned ==> Stored(outputs[..], old(outputs[..]), inputs, 0, |inputs|)
    ensures outcome == Returned ==>
              && (forall k :: 0 <= k < |inputs| ==> outputs[k] == Md5(inputs[k]))
              && (forall k :: |inputs| <= k < outputs.Length ==> outputs[k] == old(outputs[k]))
    ensures outcome == Returned && RuntimeLanes(build, cpu) > 1 ==>
              calls == Plan(Lengths(inputs), 0, RuntimeLanes(build, cpu))
  {
    hide Md5, Stored, Plan;
    ghost var was := outputs[..];
    outcome, calls := HashManyDispatch(build, cpu, inputs, outputs);
    if outcome == Returned { AllStored(outputs[..], was, inputs); }
  }

  /** Grouping pays: no four neighbours share a length already, but some length occurs four times. */
  ghost predicate WorthGrouping(lens: seq<nat>) {
    && !(exists i :: 0 <= i && EqualWindow(lens, i, 4))
    && exists x :: multiset(lens)[x] >= 4
  }

  /**
   `hash_many_grouped`: hashes a length-sorted copy and scatters the digests back. Every slot of an input is
   written with the digest of that input, whatever sorted permutation was used, and no other slot changes.
   `grouped` tells whether the sorted route was taken.
   */
  method HashManyGrouped(build: Build, cpu: Cpu, inputs: seq<seq<Byte>>, outputs: array<seq<Byte>>)
    returns (outcome: Outcome, ghost grouped: bool, ghost calls: seq<Call>)
    modifies outputs
    ensures outcome == if outputs.Length < |inputs| then Panicked else Returned
    ensures outcome == Panicked ==> outputs[..] == old(outputs[..])
    ensures outcome == Returned ==> Stored(outputs[..], old(outputs[..]), inputs, 0, |inputs|)
    ensures outcome == Returned ==>
              && (forall k :: 0 <= k < |inputs| ==> outputs[k] == Md5(inputs[k]))
              && (forall k :: |inputs| <= k < outputs.Length ==> outputs[k] == old(outputs[k]))
    ensures outcome == Returned ==> (grouped <==> WorthGrouping(Lengths(inputs)))
    ensures outcome == Returned && RuntimeLanes(build, cpu) > 1 ==>
              exists lens: seq<nat> :: calls == Plan(lens, 0, RuntimeLanes(build, cpu))
                             && (if grouped then Sorted(lens) && multiset(lens) == multiset(Lengths(inputs))
                                 else lens == Lengths(inputs))
  {
    hide Md5, Stored, Plan, Sorted, EqualWindow;
    grouped := false;
    calls := [];
    if outputs.Length < |inputs| {
      return Panicked, grouped, calls;
    }
    ghost var lens := Lengths(inputs);
    var adjacent := HasSimdSizedAdjacentRun(inputs);
    if |inputs| < 4 || adjacent {
      FewInputs(lens);
      outcome, calls := HashMany(build, cpu, inputs, outputs);
      return;
    }
    var order, pos := SortByLength(inputs);
    var maxRun, commonest := MaxRun(inputs, order);
    if maxRun < 4 {
      outcome, calls := HashMany(build, cpu, inputs, outputs);
      return;
    }
    grouped := true;
    calls := HashSorted(build, cpu, inputs, order[..], pos, outputs);
    return Returned, grouped, calls;
  }

  /** The sorted route: hashes the inputs in the given order and scatters the digests back. */
  method HashSorted(build: Build, cpu: Cpu, inputs: seq<seq<Byte>>, order: seq<nat>, ghost pos: seq<nat>,
                    outputs: array<seq<Byte>>) returns (ghost calls: seq<Call>)
    requires Inverse(order, pos) && |order| == |inputs| <= outputs.Length
    modifies outputs
    ensures Stored(outputs[..], old(outputs[..]), inputs, 0, |inputs|)
    ensures forall k :: 0 <= k < |inputs| ==> outputs[k] == Md5(inputs[k])
    ensures forall k :: |inputs| <= k < outputs.Length ==> outputs[k] == old(outputs[k])
    ensures RuntimeLanes(build, cpu) > 1 ==> calls == Plan(Pick(Lengths(inputs), order), 0, RuntimeLanes(build, cpu))
  {
    hide Md5, Stored, Plan;
    ghost var was := outputs[..];
    var sortedInputs := seq(|inputs|, i requires 0 <= i < |inputs| => inputs[order[i]]);
    assert Lengths(sortedInputs) == Pick(Lengths(inputs), order);
    var sortedOutputs := new seq<Byte>[|inputs|](_ => seq(16, _ => 0));
    var outcome;
    outcome, calls := HashMany(build, cpu, sortedInputs, sortedOutputs);
    assert outcome == Returned;
    Scatter(inputs, order, pos, sortedInputs, sortedOutputs, outputs);
    AllStored(outputs[..], was, inputs);
  }

  lemma FewInputs(lens: seq<nat>)
    ensures |lens| < 4 ==> forall x :: multiset(lens)[x] < 4
  {
    forall x | |lens| < 4 ensures multiset(lens)[x] < 4 {
      CountBounded(lens, x);
    }
  }

  lemma {:induction false} CountBounded(s: seq<nat>, x: nat)
    ensures multiset(s)[x] <= |s|
  {
    if s != [] {
      assert s == [s[0]] + s[1..];
      CountBounded(s[1..], x);
    }
  }

  /** The scatter loop: slot `order[i]` receives digest `i`; as `order` permutes, every slot is written once. */
  method Scatter(inputs: seq<seq<Byte>>, order: seq<nat>, ghost pos: seq<nat>, sortedInputs: seq<seq<Byte>>,
                 sortedOutputs: array<seq<Byte>>, outputs: array<seq<Byte>>)
    requires Inverse(order, pos) && |order| == |inputs| == |sortedInputs| == sortedOutputs.Length <= outputs.Length
    requires sortedOutputs != outputs
    requires forall i :: 0 <= i < |order| ==> sortedInputs[i] == inputs[order[i]] && sortedOutputs[i] == Md5(sortedInputs[i])
    modifies outputs
    ensures Stored(outputs[..], old(outputs[..]), inputs, 0, |inputs|)
  {
    hide Md5;
    ghost var was := outputs[..];
    for i := 0 to |order|
      invariant forall k :: 0 <= k < |order| && pos[k] < i ==> outputs[k] == Md5(inputs[k])
      invariant forall k :: 0 <= k < |order| && pos[k] >= i ==> outputs[k] == was[k]
      invariant forall k :: |order| <= k < outputs.Length ==> outputs[k] == was[k]
    {
      outputs[order[i]] := sortedOutputs[i];
    }
  }

  // ---- What grouping changes ----

  /** Without four equal neighbours plain `hash_many` hashes every message by the scalar backend. */
  lemma UngroupedIsScalar(lens: seq<nat>, max: nat)
    requires max >= 4 && !(exists i :: 0 <= i && EqualWindow(lens, i, 4))
    ensures KernelCalls(Plan(lens, 0, max)) == 0 && Scalars(Plan(lens, 0, max)) == |lens|
  {
    hide Plan;
    forall i | 0 <= i < |lens| && EqualWindow(lens, i, Threshold(lens[i])) ensures EqualWindow(lens, i, 4) { }
    KernelsUsedIff(lens, 0, max);
    PlanTiles(lens, 0, max);
    TilesCount(Plan(lens, 0, max), 0, |lens|);
  }

  /** Some length of at least 64 bytes occurs four times, or one of at least 32 bytes eight times. */
  ghost predicate WorthSorting(lens: seq<nat>) {
    exists x :: x >= 32 && multiset(lens)[x] >= Threshold(x)
  }

  lemma {:induction false} WindowCounts(s: seq<nat>, i: nat, t: nat)
    requires t > 0 && EqualWindow(s, i, t)
    ensures multiset(s)[s[i]] >= t
  {
    assert s == s[..i] + s[i..i + t] + s[i + t..];
    AllEqualCounts(s[i..i + t], s[i]);
  }

  lemma {:induction false} AllEqualCounts(s: seq<nat>, x: nat)
    requires forall k :: 0 <= k < |s| ==> s[k] == x
    ensures multiset(s)[x] == |s|
  {
    if s != [] {
      assert s == [s[0]] + s[1..];
      AllEqualCounts(s[1..], x);
    }
  }

  /** In sorted order equal lengths are neighbours. */
  lemma CountsWindow(s: seq<nat>, x: nat, t: nat) returns (i: nat)
    requires Sorted(s) && t > 0 && multiset(s)[x] >= t
    ensures EqualWindow(s, i, t) && s[i] == x
  {
    i := 0;
    while i < |s| && s[i] < x
      invariant i <= |s| && forall k :: 0 <= k < i ==> s[k] < x
    {
      i := i + 1;
    }
    var j := i;
    while j < |s| && s[j] == x
      invariant i <= j <= |s| && forall k :: i <= k < j ==> s[k] == x
    {
      j := j + 1;
    }
    forall k | j <= k < |s| ensures s[k] != x {
      assert s[j] <= s[k];
    }
    CountBetween(s, i, j, x);
  }

  lemma CountBetween(s: seq<nat>, i: nat, j: nat, x: nat)
    requires i <= j <= |s| && (forall k :: i <= k < j ==> s[k] == x)
    requires (forall k :: 0 <= k < i ==> s[k] != x) && (forall k :: j <= k < |s| ==> s[k] != x)
    ensures multiset(s)[x] == j - i
  {
    assert s == s[..i] + s[i..j] + s[j..];
    AllEqualCounts(s[i..j], x);
    assert x !in s[..i] && x !in s[j..];
  }

  /** The sorted plan uses the vector kernels exactly when the multiplicities allow it. */
  lemma SortedUsesKernelsIff(s: seq<nat>, max: nat)
    requires Sorted(s) && max >= 4
    ensures UsesKernel(Plan(s, 0, max)) <==> WorthSorting(s)
  {
    hide Plan, Sorted, EqualWindow;
    KernelsUsedIff(s, 0, max);
    if WorthVectors(s, 0) {
      var i :| 0 <= i < |s| && s[i] >= 32 && EqualWindow(s, i, Threshold(s[i]));
      WindowCounts(s, i, Threshold(s[i]));
    }
    if WorthSorting(s) {
      var x :| x >= 32 && multiset(s)[x] >= Threshold(x);
      var i := CountsWindow(s, x, Threshold(x));
      WindowInside(s, i, Threshold(x));
    }
  }

  lemma WindowInside(s: seq<nat>, i: nat, t: nat)
    requires t > 0 && EqualWindow(s, i, t)
    ensures i < |s|
  {
  }

  // ---- How much work grouping saves ----

  /** The costs of all lengths below `bound`, each with its multiplicity in `counts`, added up. */
  function LengthsWork(counts: multiset<nat>, bound: nat, max: nat): Work {
    if bound == 0 then Work(0, 0)
    else LengthsWork(counts, bound - 1, max).Plus(RunWork(counts[bound - 1], max, bound - 1))
  }

  lemma NoMessagesNoWork(max: nat, len: nat)
    ensures RunWork(0, max, len) == Work(0, 0)
  {
    if max >= 4 {
      SmallQuotient(0, max * 4);
    }
  }

  lemma {:induction false} SameCounts(p: multiset<nat>, q: multiset<nat>, bound: nat, max: nat)
    requires forall len :: 0 <= len < bound ==> p[len] == q[len]
    ensures LengthsWork(p, bound, max) == LengthsWork(q, bound, max)
  {
    hide RunWork;
    if bound != 0 {
      SameCounts(p, q, bound - 1, max);
    }
  }

  /** A length that `q` lacks adds its own cost. */
  lemma {:induction false} NewLength(p: multiset<nat>, q: multiset<nat>, len: nat, bound: nat, max: nat)
    requires len < bound && q[len] == 0 && (forall x :: x != len ==> p[x] == q[x])
    ensures LengthsWork(p, bound, max) == RunWork(p[len], max, len).Plus(LengthsWork(q, bound, max))
  {
    hide RunWork;
    if len == bound - 1 {
      SameCounts(p, q, bound - 1, max);
      NoMessagesNoWork(max, len);
    } else {
      NewLength(p, q, len, bound - 1, max);
    }
  }

  /** The first run of a sorted list holds all messages of its length. */
  lemma FirstRunCounts(s: seq<nat>, i: nat, end: nat)
    requires Sorted(s) && i < end <= |s| && (forall k :: i <= k < end ==> s[k] == s[i])
    requires end == |s| || s[end] != s[i]
    ensures multiset(s[i..])[s[i]] == end - i && multiset(s[end..])[s[i]] == 0
    ensures forall x :: x != s[i] ==> multiset(s[i..])[x] == multiset(s[end..])[x]
  {
    assert s[i..] == s[i..end] + s[end..];
    AllEqualCounts(s[i..end], s[i]);
    assert s[i] !in s[end..] by {
      forall k | end <= k < |s| ensures s[k] != s[i] {
        assert s[i] <= s[end] <= s[k];
      }
    }
    forall x | x != s[i] ensures multiset(s[i..end])[x] == 0 {
      assert x !in s[i..end];
    }
  }

  lemma {:induction false} SuffixWork(s: seq<nat>, i: nat, bound: nat, max: nat)
    requires Sorted(s) && i <= |s| && (forall k :: 0 <= k < |s| ==> s[k] < bound)
    ensures RunsWork(s, i, max) == LengthsWork(multiset(s[i..]), bound, max)
    decreases |s| - i
  {
    hide RunWork, RunEnd, Sorted;
    if i == |s| {
      NoLengths(multiset(s[i..]), bound, max);
    } else {
      var end := RunEnd(s, i, i + 1);
      RunIsMaximal(s, i, i + 1);
      FirstRunCounts(s, i, end);
      SuffixWork(s, end, bound, max);
      NewLength(multiset(s[i..]), multiset(s[end..]), s[i], bound, max);
    }
  }

  lemma {:induction false} NoLengths(counts: multiset<nat>, bound: nat, max: nat)
    requires counts == multiset{}
    ensures LengthsWork(counts, bound, max) == Work(0, 0)
  {
    hide RunWork;
    if bound != 0 {
      NoLengths(counts, bound - 1, max);
      NoMessagesNoWork(max, bound - 1);
    }
  }

  /** A sorted plan costs what the quotients and remainders of the multiplicities say, length by length. */
  lemma SortedAccounting(s: seq<nat>, bound: nat, max: nat)
    requires Sorted(s) && (forall k :: 0 <= k < |s| ==> s[k] < bound)
    ensures WorkOf(Plan(s, 0, max)) == LengthsWork(multiset(s), bound, max)
  {
    hide Sorted, RunsWork, LengthsWork, WorkOf;
    PlanAccounting(s, 0, max);
    SuffixWork(s, 0, bound, max);
    assert s[0..] == s;
  }

  /**
   The exact saving when the grouped route is taken: plain `hash_many` would have hashed every message by the
   scalar backend; the sorted plan costs what the multiplicities say and moves all other messages to vectors.
   */
  lemma GroupingSaves(lens: seq<nat>, sorted: seq<nat>, bound: nat, max: nat)
    requires WorthGrouping(lens) && Sorted(sorted) && multiset(sorted) == multiset(lens) && max >= 4
    requires forall k :: 0 <= k < |lens| ==> lens[k] < bound
    ensures WorkOf(Plan(lens, 0, max)) == Work(|lens|, 0)
    ensures WorkOf(Plan(sorted, 0, max)) == LengthsWork(multiset(lens), bound, max)
    ensures KernelMessages(Plan(sorted, 0, max)) == |lens| - LengthsWork(multiset(lens), bound, max).scalars
  {
    hide Plan, Sorted, LengthsWork, EqualWindow, Scalars, KernelCalls, KernelMessages;
    UngroupedIsScalar(lens, max);
    forall k | 0 <= k < |sorted| ensures sorted[k] < bound {
      assert sorted[k] in multiset(lens);
    }
    SortedAccounting(sorted, bound, max);
    PlanTiles(sorted, 0, max);
    TilesCount(Plan(sorted, 0, max), 0, |sorted|);
    assert |sorted| == |multiset(sorted)| == |multiset(lens)| == |lens|;
  }

  /**
   When the grouped route is taken, plain `hash_many` would have hashed everything by the scalar backend,
   and the sorted plan uses the vector kernels if and only if some multiplicity reaches its threshold.
   */
  lemma GroupingDecision(lens: seq<nat>, sorted: seq<nat>, max: nat)
    requires WorthGrouping(lens) && Sorted(sorted) && multiset(sorted) == multiset(lens) && max >= 4
    ensures Scalars(Plan(lens, 0, max)) == |lens|
    ensures UsesKernel(Plan(sorted, 0, max)) <==> WorthSorting(lens)
  {
    hide Plan, EqualWindow, Sorted, Scalars;
    UngroupedIsScalar(lens, max);
    SortedUsesKernelsIff(sorted, max);
  }
}
