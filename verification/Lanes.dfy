/** The vector step of `src/simd/wide.rs` and its projection on one lane. */
module Lanes {
  import opened Words
  import opened Consts
  import opened Rfc1321
  import opened Gather
  import Scalar

  // ---- Vector operations, lane by lane ----

  function Splat(lanes: nat, x: Word): (v: Vec)
    ensures |v| == lanes
  {
    seq(lanes, _ => x)
  }

  function VAdd(a: Vec, b: Vec): (v: Vec)
    requires |a| == |b|
    ensures |v| == |a|
  {
    seq(|a|, j requires 0 <= j < |a| => Add(a[j], b[j]))
  }

  function VXor(a: Vec, b: Vec): (v: Vec)
    requires |a| == |b|
    ensures |v| == |a|
  {
    seq(|a|, j requires 0 <= j < |a| => BitXor(a[j], b[j]))
  }

  function VAnd(a: Vec, b: Vec): (v: Vec)
    requires |a| == |b|
    ensures |v| == |a|
  {
    seq(|a|, j requires 0 <= j < |a| => BitAnd(a[j], b[j]))
  }

  function VOr(a: Vec, b: Vec): (v: Vec)
    requires |a| == |b|
    ensures |v| == |a|
  {
    seq(|a|, j requires 0 <= j < |a| => BitOr(a[j], b[j]))
  }

  function VNot(a: Vec): (v: Vec)
    ensures |v| == |a|
  {
    seq(|a|, j requires 0 <= j < |a| => BitNot(a[j]))
  }

  /** Every adapter rotates by two shifts and an or. */
  function VRotl(a: Vec, r: Amount): (v: Vec)
    ensures |v| == |a|
  {
    seq(|a|, j requires 0 <= j < |a| => ShiftOr(a[j], r))
  }

  /** The rotation amounts for which the adapters have an arm with immediate shifts. */
  const ROTATE_ARMS: set<nat> := {4, 5, 6, 7, 9, 10, 11, 12, 14, 15, 16, 17, 20, 21, 22, 23}

  /** The arms are exactly the amounts of the rotation table, so the variable-shift arm of `rotl` is never taken. */
  lemma EveryRotationHasArm(r: nat)
    ensures r in ROTATE_ARMS <==> exists i :: 0 <= i < 64 && S(i) as nat == r
  {
    hide S;
    ArmsUsed();
    forall i | 0 <= i < 64 ensures S(i) as nat in ROTATE_ARMS {
      RotationOrder(i);
    }
  }

  lemma ArmsUsed()
    ensures S(0) == 7 && S(1) == 12 && S(2) == 17 && S(3) == 22 && S(16) == 5 && S(17) == 9 && S(18) == 14 && S(19) == 20
    ensures S(32) == 4 && S(33) == 11 && S(34) == 16 && S(35) == 23 && S(48) == 6 && S(49) == 10 && S(50) == 15 && S(51) == 21
  {
  }

  // ---- Shapes and projection ----

  /** Four registers of `lanes` lanes. */
  predicate Shape(v: seq<Vec>, lanes: nat) {
    |v| == 4 && |v[0]| == lanes && |v[1]| == lanes && |v[2]| == lanes && |v[3]| == lanes
  }

  predicate WordShape(m: seq<Vec>, lanes: nat) {
    |m| == 16 && forall w :: 0 <= w < 16 ==> |m[w]| == lanes
  }

  /** Lane `j` of four registers. */
  function Lane(v: seq<Vec>, lanes: nat, j: nat): (s: seq<Word>)
    requires Shape(v, lanes) && j < lanes
    ensures |s| == 4
  {
    [v[0][j], v[1][j], v[2][j], v[3][j]]
  }

  function LaneWords(m: seq<Vec>, lanes: nat, j: nat): (s: seq<Word>)
    requires WordShape(m, lanes) && j < lanes
    ensures |s| == 16
  {
    seq(16, w requires 0 <= w < 16 => m[w][j])
  }

  // ---- One step ----

  /** The Boolean expression of step `i` in the form the vector kernel uses: G by xor, not by addition. */
  function WideMix(i: nat, x: Vec, y: Vec, z: Vec): (v: Vec)
    requires |x| == |y| == |z|
    ensures |v| == |x|
  {
    if i < 16 then VXor(z, VAnd(x, VXor(y, z)))
    else if i < 32 then VXor(y, VAnd(z, VXor(x, y)))
    else if i < 48 then VXor(VXor(x, y), z)
    else VXor(y, VOr(x, VNot(z)))
  }

  function LaneMix(i: nat, x: Word, y: Word, z: Word): Word {
    if i < 16 then BitXor(z, BitAnd(x, BitXor(y, z)))
    else if i < 32 then BitXor(y, BitAnd(z, BitXor(x, y)))
    else if i < 48 then BitXor(BitXor(x, y), z)
    else BitXor(y, BitOr(x, BitNot(z)))
  }

  lemma WideMixLane(i: nat, x: Vec, y: Vec, z: Vec, j: nat)
    requires |x| == |y| == |z| && j < |x|
    ensures WideMix(i, x, y, z)[j] == LaneMix(i, x[j], y[j], z[j])
  {
    hide BitXor, BitAnd, BitOr, BitNot;
  }

  lemma LaneMixIsMix(i: nat, x: Word, y: Word, z: Word)
    ensures LaneMix(i, x, y, z) == Mix(i, x, y, z)
  {
    hide BitXor, BitAnd, BitOr, BitNot, F, G, H, I;
    FByMask(x, y, z);
    GByMask(x, y, z);
    HByXor(x, y, z);
    IByOr(x, y, z);
  }

  /** The register that a vector step writes. */
  function WideWord(v: seq<Vec>, m: seq<Vec>, lanes: nat, i: nat): (t: Vec)
    requires Shape(v, lanes) && WordShape(m, lanes) && i < 64
    ensures |t| == lanes
  {
    var dest := DEST(i);
    var x, y, z := v[(dest + 1) % 4], v[(dest + 2) % 4], v[(dest + 3) % 4];
    VAdd(x, VRotl(VAdd(VAdd(VAdd(v[dest], WideMix(i, x, y, z)), Splat(lanes, K(i))), m[MSG(i)]), S(i)))
  }

  lemma VAddAt(a: Vec, b: Vec, j: nat)
    requires |a| == |b| && j < |a|
    ensures VAdd(a, b)[j] == Add(a[j], b[j])
  {
    hide Add;
  }

  lemma SumAt(a: Vec, mix: Vec, k: Vec, w: Vec, j: nat)
    requires |a| == |mix| == |k| == |w| && j < |a|
    ensures VAdd(VAdd(VAdd(a, mix), k), w)[j] == Add(Add(Add(a[j], mix[j]), k[j]), w[j])
  {
    hide Add, VAdd;
    VAddAt(a, mix, j);
    VAddAt(VAdd(a, mix), k, j);
    VAddAt(VAdd(VAdd(a, mix), k), w, j);
  }

  /** Lane `j` of the written register is the RFC step word of lane `j`: no lane sees another. */
  lemma WideWordLane(v: seq<Vec>, m: seq<Vec>, lanes: nat, i: nat, j: nat)
    requires Shape(v, lanes) && WordShape(m, lanes) && i < 64 && j < lanes
    ensures WideWord(v, m, lanes, i)[j]
            == StepWord(Scalar.View(Lane(v, lanes, j), i), LaneWords(m, lanes, j)[MSG(i)], i)
  {
    hide WideMix, LaneMix, Mix, Add, VAdd, Rotl, ShiftOr, K, MSG, S;
    var dest := DEST(i);
    var x, y, z := v[(dest + 1) % 4], v[(dest + 2) % 4], v[(dest + 3) % 4];
    var s := Lane(v, lanes, j);
    assert s[dest] == v[dest][j];
    assert s[(dest + 1) % 4] == x[j] && s[(dest + 2) % 4] == y[j] && s[(dest + 3) % 4] == z[j];
    WideMixLane(i, x, y, z, j);
    LaneMixIsMix(i, x[j], y[j], z[j]);
    var total := VAdd(VAdd(VAdd(v[dest], WideMix(i, x, y, z)), Splat(lanes, K(i))), m[MSG(i)]);
    SumAt(v[dest], WideMix(i, x, y, z), Splat(lanes, K(i)), m[MSG(i)], j);
    VAddAt(x, VRotl(total, S(i)), j);
    var sum := Add(Add(Add(v[dest][j], Mix(i, x[j], y[j], z[j])), K(i)), m[MSG(i)][j]);
    RotationsAgree(sum, S(i));
  }

  lemma WideStepLane(v: seq<Vec>, m: seq<Vec>, lanes: nat, i: nat, j: nat)
    requires Shape(v, lanes) && WordShape(m, lanes) && i < 64 && j < lanes
    ensures var v' := v[DEST(i) := WideWord(v, m, lanes, i)];
            Scalar.View(Lane(v', lanes, j), i + 1) == Step(Scalar.View(Lane(v, lanes, j), i), LaneWords(m, lanes, j), i)
  {
    hide WideWord, StepWord, Scalar.View, MSG, Step, LaneWords;
    var s, w := Lane(v, lanes, j), LaneWords(m, lanes, j);
    WideWordLane(v, m, lanes, i, j);
    Scalar.DestStepIsStep(s, w, i);
    assert Lane(v[DEST(i) := WideWord(v, m, lanes, i)], lanes, j)
        == s[DEST(i) := StepWord(Scalar.View(s, i), w[MSG(i)], i)];
  }

  /** After `n` steps every lane of `v` is where RFC 1321 puts that lane, started from `s` with words `m`. */
  predicate Stepped(v: seq<Vec>, s: seq<Vec>, m: seq<Vec>, lanes: nat, n: nat) {
    && Shape(v, lanes) && Shape(s, lanes) && WordShape(m, lanes) && n <= 64
    && forall j :: 0 <= j < lanes ==>
         Scalar.View(Lane(v, lanes, j), n) == Steps(StateOf(Lane(s, lanes, j)), LaneWords(m, lanes, j), n)
  }

  /** `s'` is, lane by lane, the compression of `s` with `m`. */
  predicate Compressed(s': seq<Vec>, s: seq<Vec>, m: seq<Vec>, lanes: nat) {
    && Shape(s', lanes) && Shape(s, lanes) && WordShape(m, lanes)
    && forall j :: 0 <= j < lanes ==>
         StateOf(Lane(s', lanes, j)) == CompressWords(StateOf(Lane(s, lanes, j)), LaneWords(m, lanes, j))
  }

  lemma SteppedStart(s: seq<Vec>, m: seq<Vec>, lanes: nat)
    requires Shape(s, lanes) && WordShape(m, lanes)
    ensures Stepped(s, s, m, lanes, 0)
  {
    hide LaneWords;
  }

  lemma SteppedNext(v: seq<Vec>, s: seq<Vec>, m: seq<Vec>, lanes: nat, i: nat)
    requires Stepped(v, s, m, lanes, i) && i < 64
    ensures Stepped(v[DEST(i) := WideWord(v, m, lanes, i)], s, m, lanes, i + 1)
  {
    hide WideWord, Scalar.View, LaneWords, Step, Lane;
    var v' := v[DEST(i) := WideWord(v, m, lanes, i)];
    forall j | 0 <= j < lanes
      ensures Scalar.View(Lane(v', lanes, j), i + 1) == Steps(StateOf(Lane(s, lanes, j)), LaneWords(m, lanes, j), i + 1)
    {
      WideStepLane(v, m, lanes, i, j);
    }
  }

  lemma FeedForwardLane(v: seq<Vec>, s: seq<Vec>, lanes: nat, j: nat)
    requires Shape(v, lanes) && Shape(s, lanes) && j < lanes
    ensures StateOf(Lane(FeedForward(v, s, lanes), lanes, j)) == Sum(StateOf(Lane(s, lanes, j)), StateOf(Lane(v, lanes, j)))
  {
    hide Add;
    AddComm(v[0][j], s[0][j]);
    AddComm(v[1][j], s[1][j]);
    AddComm(v[2][j], s[2][j]);
    AddComm(v[3][j], s[3][j]);
  }

  lemma ViewEnd(v: seq<Word>)
    requires |v| == 4
    ensures Scalar.View(v, 64) == StateOf(v)
  {
  }

  /** The closing additions turn 64 lockstep steps into one compression per lane. */
  lemma SteppedEnd(v: seq<Vec>, s: seq<Vec>, m: seq<Vec>, lanes: nat)
    requires Stepped(v, s, m, lanes, 64)
    ensures Compressed(FeedForward(v, s, lanes), s, m, lanes)
  {
    hide Steps, LaneWords, Sum, FeedForward, Lane, StateOf, Scalar.View;
    forall j | 0 <= j < lanes
      ensures StateOf(Lane(FeedForward(v, s, lanes), lanes, j))
           == CompressWords(StateOf(Lane(s, lanes, j)), LaneWords(m, lanes, j))
    {
      FeedForwardLane(v, s, lanes, j);
      ViewEnd(Lane(v, lanes, j));
    }
  }

  /** `state[r] = add(v[r], state[r])` for all four registers. */
  function FeedForward(v: seq<Vec>, s: seq<Vec>, lanes: nat): (s': seq<Vec>)
    requires Shape(v, lanes) && Shape(s, lanes)
    ensures Shape(s', lanes)
  {
    [VAdd(v[0], s[0]), VAdd(v[1], s[1]), VAdd(v[2], s[2]), VAdd(v[3], s[3])]
  }
}
