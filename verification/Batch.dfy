/** What a batch call promises about its output slots. */
module Batch {
  import opened Words
  import opened Rfc1321

  function Lengths(inputs: seq<seq<Byte>>): (lens: seq<nat>)
    ensures |lens| == |inputs|
  {
    seq(|inputs|, i requires 0 <= i < |inputs| => |inputs[i]|)
  }

  /** Slots `at` to `at + n - 1` hold the digests of the first `n` inputs; every other slot is as in `was`. */
  predicate Stored(outputs: seq<seq<Byte>>, was: seq<seq<Byte>>, inputs: seq<seq<Byte>>, at: nat, n: nat)
    requires n <= |inputs|
  {
    && |outputs| == |was|
    && forall k :: 0 <= k < |was| ==> outputs[k] == if at <= k < at + n then Md5(inputs[k - at]) else was[k]
  }

  /** A call on all inputs from slot 0 on: every slot of an input holds its digest, later slots are as before. */
  lemma AllStored(outputs: seq<seq<Byte>>, was: seq<seq<Byte>>, inputs: seq<seq<Byte>>)
    requires Stored(outputs, was, inputs, 0, |inputs|) && |inputs| <= |was|
    ensures |outputs| == |was| && forall k :: 0 <= k < |inputs| ==> outputs[k] == Md5(inputs[k])
    ensures forall k :: |inputs| <= k < |was| ==> outputs[k] == was[k]
  {
    hide Md5;
  }

  lemma NothingStored(was: seq<seq<Byte>>, inputs: seq<seq<Byte>>)
    ensures Stored(was, was, inputs, 0, 0)
  {
  }

  /** Writing the next slot. */
  lemma StoredSlot(outputs: seq<seq<Byte>>, was: seq<seq<Byte>>, inputs: seq<seq<Byte>>, at: nat, n: nat, d: seq<Byte>)
    requires n < |inputs| && at + n < |outputs| && Stored(outputs, was, inputs, at, n) && d == Md5(inputs[n])
    ensures Stored(outputs[at + n := d], was, inputs, at, n + 1)
  {
    hide Md5;
  }

  /** A call on a slice of the inputs extends the finished prefix. */
  lemma StoredNext(outputs: seq<seq<Byte>>, mid: seq<seq<Byte>>, was: seq<seq<Byte>>, inputs: seq<seq<Byte>>, k: nat, b: nat)
    requires k + b <= |inputs| && Stored(mid, was, inputs, 0, k)
    requires Stored(outputs, mid, inputs[k..k + b], k, b)
    ensures Stored(outputs, was, inputs, 0, k + b)
  {
    hide Md5;
    forall i | 0 <= i < |was|
      ensures outputs[i] == if 0 <= i < k + b then Md5(inputs[i]) else was[i]
    {
      if k <= i < k + b {
        assert inputs[k..k + b][i - k] == inputs[i];
      }
    }
  }
}
