/** The streaming state machine of `src/core.rs` and the hasher over it in `src/md5.rs`. */
module Stream {
  import opened Words
  import opened Rfc1321
  import opened Kernels
  import opened Frame

  /** What a `Raw` holds: chaining words, the bytes of the incomplete block, and the wrapping byte count. */
  datatype View = View(state: State, tail: seq<Byte>, count: nat) {
    predicate Valid() {
      |tail| < 64 && count < TWO64
    }
  }

  const FRESH: View := View(IV, [], 0)

  /** `all` cut into complete blocks, folded into `s`, and the rest. */
  function Cut(s: State, all: seq<Byte>, count: nat): (v: View)
    ensures |v.tail| < 64 && v.count == count
  {
    var full := Complete(|all|);
    View(Fold(s, all[..full]), all[full..], count)
  }

  /** Absorbing `data`: the buffered bytes and the new ones are cut into blocks and a rest. */
  function Absorb(v: View, data: seq<Byte>): (v': View)
    requires v.Valid()
    ensures v'.Valid()
  {
    Cut(v.state, v.tail + data, (v.count + |data|) % TWO64)
  }

  /** The digest a snapshot returns. */
  function Snapshot(v: View): (d: seq<Byte>)
    requires v.Valid()
    ensures |d| == 16
  {
    PaddedLength(v.count, v.tail);
    Digest(Fold(v.state, FinalBlocks(v.count, v.tail)))
  }

  /** `v` is the state reached by absorbing exactly `msg`. */
  predicate Represents(v: View, msg: seq<Byte>) {
    v == Cut(IV, msg, |msg| % TWO64)
  }

  // ---- The class ----

  class Raw {
    const state: array<Word>
    const buf: array<Byte>
    var bufLen: nat
    var count: nat

    ghost predicate Valid()
      reads this
    {
      state.Length == 4 && buf.Length == 64 && bufLen < 64 && count < TWO64
    }

    ghost function Value(): View
      requires Valid()
      reads this, state, buf
    {
      View(StateOf(state[..]), buf[..bufLen], count)
    }

    constructor ()
      ensures Valid() && fresh(state) && fresh(buf)
      ensures Value() == FRESH
    {
      state := new Word[4](i requires 0 <= i < 4 => IV.Words()[i]);
      buf := new Byte[64](_ => 0);
      bufLen := 0;
      count := 0;
      new;
      assert state[..] == IV.Words() && buf[..0] == [];
    }

    /** `from_parts`: resume after `countBytes` bytes whose blocks led to `words`; no partial block is restored. */
    constructor FromParts(words: State, countBytes: nat)
      requires countBytes < TWO64
      ensures Valid() && fresh(state) && fresh(buf)
      ensures Value() == View(words, [], countBytes)
    {
      state := new Word[4](i requires 0 <= i < 4 => words.Words()[i]);
      buf := new Byte[64](_ => 0);
      bufLen := 0;
      count := countBytes;
      new;
      assert state[..] == words.Words() && buf[..0] == [];
    }

    /** `update`, generic over the compressor: fill the buffered block first, then work on whole blocks. */
    method Update(kernel: Kernel, input: seq<Byte>)
      requires Valid()
      modifies this, state, buf
      ensures Valid() && Value() == Absorb(old(Value()), input)
    {
      hide Fold, Compress, Absorb, Cut;
      ghost var v := Value();
      var data := input;
      count := (count + |data|) % TWO64;
      if bufLen > 0 {
        var have := bufLen;
        var take := if 64 - have < |data| then 64 - have else |data|;
        forall i | 0 <= i < take { buf[have + i] := data[i]; }
        assert buf[..have + take] == v.tail + input[..take];
        data := data[take..];
        if have + take == 64 {
          assert buf[..] == v.tail + input[..take];
          CompressBlock(kernel, state, buf[..]);
          bufLen := 0;
          AbsorbFill(v, input, take);
        } else {
          bufLen := have + take;
          assert input[..take] == input;
          AbsorbLittle(v, input);
          return;
        }
      } else {
        AbsorbEmpty(v, input);
      }
      UpdateAligned(kernel, data);
    }

    /** The second half of `update`: complete blocks straight from the input, then buffer the rest. */
    method UpdateAligned(kernel: Kernel, input: seq<Byte>)
      requires Valid() && bufLen == 0
      modifies state, buf, this`bufLen
      ensures Valid() && Value() == Cut(old(Value().state), input, count)
    {
      hide Fold, Compress;
      var full := Complete(|input|);
      FoldNothing(StateOf(state[..]));
      if |input| >= 64 {
        var outcome := CompressBlocksWith(kernel, state, input[..full]);
        assert outcome == Returned;
      }
      BufferRest(input[full..]);
    }

    /** The bytes after the last complete block go to the front of the buffer. */
    method BufferRest(rest: seq<Byte>)
      requires Valid() && bufLen == 0 && |rest| < 64
      modifies buf, this`bufLen
      ensures Valid() && buf[..bufLen] == rest
    {
      if |rest| != 0 {
        forall i | 0 <= i < |rest| { buf[i] := rest[i]; }
        bufLen := |rest|;
      }
    }

    /**
     `update_opt`: with an opt kernel a second copy of the update that runs its own chunk loop over that kernel,
     otherwise `update` with the kernel this build selects.
     */
    method UpdateOpt(build: Build, input: seq<Byte>)
      requires Valid()
      modifies this, state, buf
      ensures Valid() && Value() == Absorb(old(Value()), input)
    {
      hide Fold, Compress, Absorb, Cut;
      if !HasOptKernel(build) {
        Update(BlockKernel(build), input);
        return;
      }
      ghost var v := Value();
      var data := input;
      count := (count + |data|) % TWO64;
      if bufLen > 0 {
        var have := bufLen;
        var take := if 64 - have < |data| then 64 - have else |data|;
        forall i | 0 <= i < take { buf[have + i] := data[i]; }
        assert buf[..have + take] == v.tail + input[..take];
        data := data[take..];
        if have + take == 64 {
          assert buf[..] == v.tail + input[..take];
          CompressBlock(OptKernel(build), state, buf[..]);
          bufLen := 0;
          AbsorbFill(v, input, take);
        } else {
          bufLen := have + take;
          assert input[..take] == input;
          AbsorbLittle(v, input);
          return;
        }
      } else {
        AbsorbEmpty(v, input);
      }
      UpdateAlignedOpt(build, data);
    }

    /** The second half of `update_opt`, on the state array itself. */
    method UpdateAlignedOpt(build: Build, input: seq<Byte>)
      requires Valid() && bufLen == 0 && HasOptKernel(build)
      modifies state, buf, this`bufLen
      ensures Valid() && Value() == Cut(old(Value().state), input, count)
    {
      hide Fold, Compress;
      var full := Complete(|input|);
      FoldNothing(StateOf(state[..]));
      if |input| >= 64 {
        CompressChunks(OptKernel(build), state, input[..full]);
      }
      BufferRest(input[full..]);
    }

    /** `digest_snapshot`: pads a copy of the chaining state; the stream itself is only read. */
    method DigestSnapshot(kernel: Kernel) returns (d: seq<Byte>)
      requires Valid()
      ensures d == Snapshot(Value())
    {
      hide Fold, Digest, FinalBlocks;
      d := FinalizeWith(kernel, StateOf(state[..]), count, buf[..bufLen]);
    }

    /** `reset`. */
    method Reset()
      requires Valid()
      modifies this, state, buf
      ensures Valid() && Value() == FRESH
    {
      state[0], state[1], state[2], state[3] := IV.a, IV.b, IV.c, IV.d;
      forall i | 0 <= i < 64 { buf[i] := 0; }
      bufLen := 0;
      count := 0;
      assert state[..] == IV.Words() && buf[..0] == [];
    }

    /** `finalize_reset`. */
    method FinalizeReset(kernel: Kernel) returns (d: seq<Byte>)
      requires Valid()
      modifies this, state, buf
      ensures Valid() && Value() == FRESH && d == old(Snapshot(Value()))
    {
      d := DigestSnapshot(kernel);
      Reset();
    }
  }

  /** Input that does not complete the buffered block is only appended. */
  lemma AbsorbLittle(v: View, data: seq<Byte>)
    requires v.Valid() && |v.tail| + |data| < 64
    ensures Absorb(v, data) == View(v.state, v.tail + data, (v.count + |data|) % TWO64)
  {
    hide Fold, Cut;
    var all := v.tail + data;
    CutParts(v.state, all, (v.count + |data|) % TWO64);
    assert all[..0] == [] && all[0..] == all;
    FoldNothing(v.state);
  }

  lemma AbsorbEmpty(v: View, data: seq<Byte>)
    requires v.Valid() && v.tail == []
    ensures Absorb(v, data) == Cut(v.state, data, (v.count + |data|) % TWO64)
  {
    hide Fold, Compress;
    assert v.tail + data == data;
  }

  /** Input that completes the buffered block compresses it, then goes on from an empty buffer. */
  lemma AbsorbFill(v: View, data: seq<Byte>, take: nat)
    requires v.Valid() && take <= |data| && |v.tail| + take == 64
    ensures Absorb(v, data) == Cut(Compress(v.state, v.tail + data[..take]), data[take..], (v.count + |data|) % TWO64)
  {
    hide Compress, Fold;
    var rest := data[take..];
    var full := Complete(|rest|);
    var block := v.tail + data[..take];
    assert v.tail + data == block + rest;
    CutAfterBlocks(v.state, block, rest, (v.count + |data|) % TWO64);
    FoldOne(v.state, block);
  }

  lemma WholeBlocks(front: nat, rest: nat)
    requires front % 64 == 0
    ensures Complete(front + rest) == front + Complete(rest)
  {
    var q, r := front / 64 + rest / 64, rest % 64;
    assert front + rest == q * 64 + r;
    ResidueOf(q, r, 64);
  }

  lemma SliceJoin(x: seq<Byte>, y: seq<Byte>, k: nat)
    requires k <= |y|
    ensures (x + y)[..|x| + k] == x + y[..k] && (x + y)[|x| + k..] == y[k..]
  {
  }

  /** Complete blocks at the front can be folded first. */
  lemma CutAfterBlocks(s: State, front: seq<Byte>, rest: seq<Byte>, count: nat)
    requires |front| % 64 == 0
    ensures Cut(s, front + rest, count) == Cut(Fold(s, front), rest, count)
  {
    hide Compress, Fold, Cut;
    var full := Complete(|rest|);
    WholeBlocks(|front|, |rest|);
    CutParts(s, front + rest, count);
    CutParts(Fold(s, front), rest, count);
    SliceJoin(front, rest, full);
    FoldAppend(s, front, rest[..full]);
  }

  // ---- Streams against messages ----

  /** How the input is split into updates never matters. */
  lemma AbsorbSplit(v: View, x: seq<Byte>, y: seq<Byte>)
    requires v.Valid()
    ensures Absorb(Absorb(v, x), y) == Absorb(v, x + y)
  {
    hide Fold, Cut;
    CutTwice(v.state, v.tail + x, y, (v.count + |x|) % TWO64, (v.count + |x + y|) % TWO64);
    assert v.tail + (x + y) == v.tail + x + y;
    CountSplit(v.count, |x|, |y|);
  }

  /** Bytes cut in two goes, the rest of the first carried into the second, are cut as in one. */
  lemma CutTwice(s: State, x: seq<Byte>, y: seq<Byte>, mid: nat, end: nat)
    ensures Cut(Cut(s, x, mid).state, Cut(s, x, mid).tail + y, end) == Cut(s, x + y, end)
  {
    hide Fold, Cut;
    var full := Complete(|x|);
    CutParts(s, x, mid);
    Regroup(x, y, full);
    CutAfterBlocks(s, x[..full], x[full..] + y, end);
  }

  lemma CutParts(s: State, x: seq<Byte>, count: nat)
    ensures var full := Complete(|x|);
            Cut(s, x, count) == View(Fold(s, x[..full]), x[full..], count)
  {
    hide Fold;
  }

  lemma Regroup(x: seq<Byte>, y: seq<Byte>, k: nat)
    requires k <= |x|
    ensures x + y == x[..k] + (x[k..] + y)
  {
  }

  lemma CountSplit(c: nat, x: nat, y: nat)
    ensures ((c + x) % TWO64 + y) % TWO64 == (c + (x + y)) % TWO64
  {
  }

  lemma AbsorbRepresents(v: View, msg: seq<Byte>, data: seq<Byte>)
    requires Represents(v, msg)
    ensures v.Valid() && Represents(Absorb(v, data), msg + data)
  {
    hide Fold, Cut;
    assert [] + msg == msg && [] + (msg + data) == msg + data;
    assert v == Absorb(FRESH, msg);
    AbsorbSplit(FRESH, msg, data);
  }

  /** A snapshot is the one-shot digest of everything absorbed. */
  lemma SnapshotIsMd5(v: View, msg: seq<Byte>)
    requires Represents(v, msg)
    ensures v.Valid() && Snapshot(v) == Md5(msg)
  {
    hide Fold, Digest, Md5, FinalBlocks;
    var full := Complete(|msg|);
    assert v.state == Fold(IV, msg[..full]) && v.tail == msg[full..] && v.count == |msg| % TWO64;
    Md5Splits(msg, full);
    FinalBlocksWrap(|msg|, v.tail);
  }

  /** The byte counter may wrap: only its value modulo 2^61 reaches the padding. */
  lemma FinalBlocksWrap(count: nat, tail: seq<Byte>)
    ensures FinalBlocks(count % TWO64, tail) == FinalBlocks(count, tail)
  {
    hide BitLength, ZeroCount;
    BitLengthMeaning(count % TWO64, count);
    ModOfMod(count);
  }

  // ---- Whole runs ----

  datatype Event = Update(data: seq<Byte>) | TakeSnapshot | Reset | FinalizeReset

  function Next(v: View, e: Event): (v': View)
    requires v.Valid()
    ensures v'.Valid()
  {
    match e
    case Update(data) => Absorb(v, data)
    case TakeSnapshot => v
    case Reset => FRESH
    case FinalizeReset => FRESH
  }

  /** What an event hands out: a digest or nothing. */
  function Handed(v: View, e: Event): seq<seq<Byte>>
    requires v.Valid()
  {
    if e == TakeSnapshot || e == FinalizeReset then [Snapshot(v)] else []
  }

  /** The digests a run hands out, in order. */
  function Digests(v: View, run: seq<Event>): seq<seq<Byte>>
    requires v.Valid()
    decreases |run|
  {
    if run == [] then [] else Handed(v, run[0]) + Digests(Next(v, run[0]), run[1..])
  }

  function After(v: View, run: seq<Event>): (v': View)
    requires v.Valid()
    ensures v'.Valid()
    decreases |run|
  {
    if run == [] then v else After(Next(v, run[0]), run[1..])
  }

  /** The reference stream: it remembers every byte since the last reset. */
  function NextMessage(msg: seq<Byte>, e: Event): seq<Byte> {
    match e
    case Update(data) => msg + data
    case TakeSnapshot => msg
    case Reset => []
    case FinalizeReset => []
  }

  function MessageAfter(msg: seq<Byte>, run: seq<Event>): seq<Byte>
    decreases |run|
  {
    if run == [] then msg else MessageAfter(NextMessage(msg, run[0]), run[1..])
  }

  /** The reference digests: one-shot hashes of the remembered message. */
  function OneShotDigests(msg: seq<Byte>, run: seq<Event>): seq<seq<Byte>>
    decreases |run|
  {
    if run == [] then []
    else (if run[0] == TakeSnapshot || run[0] == FinalizeReset then [Md5(msg)] else [])
         + OneShotDigests(NextMessage(msg, run[0]), run[1..])
  }

  lemma FreshRepresentsNothing()
    ensures Represents(FRESH, [])
  {
  }

  lemma NextRepresents(v: View, msg: seq<Byte>, e: Event)
    requires Represents(v, msg)
    ensures v.Valid() && Represents(Next(v, e), NextMessage(msg, e))
  {
    hide Represents, Absorb;
    FreshRepresentsNothing();
    SnapshotIsMd5(v, msg);
    if e.Update? {
      AbsorbRepresents(v, msg, e.data);
    }
  }

  /** Streaming refines one-shot hashing over every run of updates, snapshots and resets. */
  lemma {:induction false} StreamRefinesOneShot(v: View, msg: seq<Byte>, run: seq<Event>)
    requires Represents(v, msg)
    ensures v.Valid()
    ensures Digests(v, run) == OneShotDigests(msg, run)
    ensures Represents(After(v, run), MessageAfter(msg, run))
    decreases |run|
  {
    hide Represents, Next, NextMessage, Snapshot, Md5;
    SnapshotIsMd5(v, msg);
    if run != [] {
      NextRepresents(v, msg, run[0]);
      StreamRefinesOneShot(Next(v, run[0]), NextMessage(msg, run[0]), run[1..]);
    }
  }

  /**
   A caller's run on a hasher object. Its digests and its final value are those of `Digests` and `After`; so on
   an object that represents `msg` they are the one-shot digests of the reference stream.
   */
  method RunEvents(build: Build, raw: Raw, run: seq<Event>) returns (ds: seq<seq<Byte>>)
    requires raw.Valid()
    modifies raw, raw.state, raw.buf
    ensures raw.Valid() && raw.Value() == After(old(raw.Value()), run)
    ensures ds == Digests(old(raw.Value()), run)
    ensures forall msg :: Represents(old(raw.Value()), msg) ==>
              ds == OneShotDigests(msg, run) && Represents(raw.Value(), MessageAfter(msg, run))
  {
    hide Handed, Next, Represents;
    ghost var v := raw.Value();
    ds := [];
    for k := 0 to |run|
      invariant raw.Valid()
      invariant After(raw.Value(), run[k..]) == After(v, run)
      invariant ds + Digests(raw.Value(), run[k..]) == Digests(v, run)
    {
      RunStep(raw.Value(), run, k);
      var d := HandleEvent(build, raw, run[k]);
      ds := ds + d;
    }
    forall msg | Represents(v, msg)
      ensures ds == OneShotDigests(msg, run) && Represents(raw.Value(), MessageAfter(msg, run))
    {
      StreamRefinesOneShot(v, msg, run);
    }
  }

  /** One event on a hasher object. */
  method HandleEvent(build: Build, raw: Raw, e: Event) returns (d: seq<seq<Byte>>)
    requires raw.Valid()
    modifies raw, raw.state, raw.buf
    ensures raw.Valid() && raw.Value() == Next(old(raw.Value()), e)
    ensures d == Handed(old(raw.Value()), e)
  {
    hide Snapshot, Absorb;
    d := [];
    match e
    case Update(data) => raw.UpdateOpt(build, data);
    case TakeSnapshot =>
      var digest := raw.DigestSnapshot(BlockKernel(build));
      d := [digest];
    case Reset => raw.Reset();
    case FinalizeReset =>
      var digest := raw.FinalizeReset(BlockKernel(build));
      d := [digest];
  }

  lemma RunStep(v: View, run: seq<Event>, k: nat)
    requires v.Valid() && k < |run|
    ensures After(v, run[k..]) == After(Next(v, run[k]), run[k + 1..])
    ensures Digests(v, run[k..]) == Handed(v, run[k]) + Digests(Next(v, run[k]), run[k + 1..])
  {
    hide Handed, Next;
    assert run[k..][0] == run[k] && run[k..][1..] == run[k + 1..];
  }

  // ---- Resuming and counter wrap ----

  /**
   `from_parts` restores no partial block. The state it builds from the chaining words and the count of a
   prefix is the stream that absorbed the prefix if and only if the prefix ends on a block boundary.
   */
  lemma ResumedStream(prefix: seq<Byte>)
    ensures Represents(View(Fold(IV, prefix[..Complete(|prefix|)]), [], |prefix| % TWO64), prefix)
            <==> |prefix| % 64 == 0
  {
    hide Fold;
    assert |prefix[Complete(|prefix|)..]| == |prefix| % 64;
  }

  /** Resumed at a block boundary, every run goes on as if the hasher had absorbed the prefix itself. */
  lemma ResumedRun(prefix: seq<Byte>, run: seq<Event>)
    requires |prefix| % 64 == 0
    ensures Digests(View(Fold(IV, prefix), [], |prefix| % TWO64), run) == OneShotDigests(prefix, run)
  {
    hide Fold, Digests, OneShotDigests, Represents;
    assert prefix[..Complete(|prefix|)] == prefix;
    ResumedStream(prefix);
    StreamRefinesOneShot(View(Fold(IV, prefix), [], |prefix| % TWO64), prefix, run);
  }

  /** Same chaining words, same buffered bytes, byte counts congruent modulo 2^61. */
  predicate SameStream(v: View, w: View) {
    v.state == w.state && v.tail == w.tail && v.count % 0x2000_0000_0000_0000 == w.count % 0x2000_0000_0000_0000
  }

  /** Two such streams give the same digests over every run, including across wrap of the 64-bit counter. */
  lemma {:induction false} CountsCongruent(v: View, w: View, run: seq<Event>)
    requires v.Valid() && w.Valid() && SameStream(v, w)
    ensures Digests(v, run) == Digests(w, run)
    ensures SameStream(After(v, run), After(w, run))
    decreases |run|
  {
    hide Snapshot, Absorb;
    SameSnapshot(v, w);
    if run != [] {
      if run[0].Update? {
        SameAbsorb(v, w, run[0].data);
      }
      CountsCongruent(Next(v, run[0]), Next(w, run[0]), run[1..]);
    }
  }

  lemma SameAbsorb(v: View, w: View, data: seq<Byte>)
    requires v.Valid() && w.Valid() && SameStream(v, w)
    ensures SameStream(Absorb(v, data), Absorb(w, data))
  {
    hide Fold;
    ModOfMod(v.count + |data|);
    ModOfMod(w.count + |data|);
    ModSum(v.count, |data|);
    ModSum(w.count, |data|);
  }

  lemma ModOfMod(x: nat)
    ensures x % TWO64 % 0x2000_0000_0000_0000 == x % 0x2000_0000_0000_0000
  {
    var m := 0x2000_0000_0000_0000;
    var y := x % TWO64;
    assert x == x / TWO64 * TWO64 + y;
    assert x == (8 * (x / TWO64) + y / m) * m + y % m;
    ResidueOf(8 * (x / TWO64) + y / m, y % m, m);
  }

  lemma ModSum(x: nat, n: nat)
    ensures (x + n) % 0x2000_0000_0000_0000 == (x % 0x2000_0000_0000_0000 + n) % 0x2000_0000_0000_0000
  {
    var m := 0x2000_0000_0000_0000;
    var y := x % m + n;
    assert x + n == (x / m + y / m) * m + y % m;
    ResidueOf(x / m + y / m, y % m, m);
  }

  lemma SameSnapshot(v: View, w: View)
    requires v.Valid() && w.Valid() && SameStream(v, w)
    ensures Snapshot(v) == Snapshot(w)
  {
    hide Fold, Digest, BitLength, ZeroCount;
    BitLengthMeaning(v.count, w.count);
  }

  /** The congruence is exact: with other counts the final blocks differ. */
  lemma FinalBlocksMeaning(x: nat, y: nat, tail: seq<Byte>)
    ensures FinalBlocks(x, tail) == FinalBlocks(y, tail)
            <==> x % 0x2000_0000_0000_0000 == y % 0x2000_0000_0000_0000
  {
    hide BitLength, ZeroCount;
    BitLengthMeaning(x, y);
    var p, q := FinalBlocks(x, tail), FinalBlocks(y, tail);
    assert p[|p| - 8..] == BitLength(x) && q[|q| - 8..] == BitLength(y);
  }
}
