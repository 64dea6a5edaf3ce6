/** `update_many` and `finalize_many` of `src/engine.rs`: scalar loops over independent streams. */
module Streams {
  import opened Words
  import opened Rfc1321
  import opened Kernels
  import opened Stream

  /** The streams of a slice are separate objects with separate buffers. */
  ghost predicate Separate(states: seq<Raw>)
    reads states
  {
    && (forall i :: 0 <= i < |states| ==> states[i].Valid())
    && (forall i, j :: 0 <= i < j < |states| ==>
          states[i] != states[j] && states[i].state != states[j].state && states[i].buf != states[j].buf)
  }

  ghost function Memory(states: seq<Raw>): set<object> {
    (set i | 0 <= i < |states| :: states[i])
    + (set i | 0 <= i < |states| :: states[i].state)
    + (set i | 0 <= i < |states| :: states[i].buf)
  }

  /** `update_many`: stream `i` absorbs input `i` and nothing else. */
  method UpdateMany(build: Build, states: seq<Raw>, inputs: seq<seq<Byte>>) returns (outcome: Outcome)
    requires Separate(states)
    modifies Memory(states)
    ensures Separate(states)
    ensures outcome == if |states| == |inputs| then Returned else Panicked
    ensures outcome == Panicked ==> forall i :: 0 <= i < |states| ==> states[i].Value() == old(states[i].Value())
    ensures outcome == Returned ==>
              forall i :: 0 <= i < |states| ==> states[i].Value() == Absorb(old(states[i].Value()), inputs[i])
  {
    hide Absorb, Snapshot;
    if |states| != |inputs| {
      return Panicked;
    }
    for k := 0 to |states|
      invariant Separate(states)
      invariant forall i :: 0 <= i < k ==> states[i].Value() == Absorb(old(states[i].Value()), inputs[i])
      invariant forall i :: k <= i < |states| ==> states[i].Value() == old(states[i].Value())
    {
      label before:
      states[k].UpdateOpt(build, inputs[k]);
      forall i | 0 <= i < |states| && i != k
        ensures states[i].Valid() && states[i].Value() == old@before(states[i].Value())
      {
        assert states[i] != states[k] && states[i].state != states[k].state && states[i].buf != states[k].buf;
      }
    }
    return Returned;
  }

  /** `finalize_many`: one snapshot for each stream; the streams are only read and later slots stay. */
  method FinalizeMany(build: Build, states: seq<Raw>, outputs: array<seq<Byte>>) returns (outcome: Outcome)
    requires Separate(states) && outputs as object !in Memory(states)
    modifies outputs
    ensures outcome == if outputs.Length < |states| then Panicked else Returned
    ensures outcome == Panicked ==> outputs[..] == old(outputs[..])
    ensures outcome == Returned ==>
              forall k :: 0 <= k < outputs.Length ==>
                outputs[k] == if k < |states| then Snapshot(states[k].Value()) else old(outputs[k])
  {
    hide Snapshot;
    if outputs.Length < |states| {
      return Panicked;
    }
    for i := 0 to |states|
      invariant Separate(states)
      invariant forall k :: 0 <= k < |states| ==> states[k].Value() == old(states[k].Value())
      invariant forall k :: 0 <= k < i ==> outputs[k] == Snapshot(old(states[k].Value()))
      invariant forall k :: i <= k < outputs.Length ==> outputs[k] == old(outputs[k])
    {
      FinalizeOne(build, states, i, outputs);
    }
    return Returned;
  }

  method FinalizeOne(build: Build, states: seq<Raw>, i: nat, outputs: array<seq<Byte>>)
    requires Separate(states) && outputs as object !in Memory(states) && i < |states| <= outputs.Length
    modifies outputs
    ensures Separate(states)
    ensures forall k :: 0 <= k < |states| ==> states[k].Value() == old(states[k].Value())
    ensures outputs[..] == old(outputs[..])[i := Snapshot(old(states[i].Value()))]
  {
    hide Snapshot;
    var d := states[i].DigestSnapshot(BlockKernel(build));
    assert forall k :: 0 <= k < |states| ==> states[k] in Memory(states) && states[k].state in Memory(states) && states[k].buf in Memory(states);
    outputs[i] := d;
  }
}
