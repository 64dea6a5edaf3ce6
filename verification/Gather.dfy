/**
 The block gathers of `src/simd/avx2.rs`, `avx512.rs`, `neon.rs` and `neon8.rs`. A vector is the sequence
 of its lanes, a pointer is a position in readable bytes, and every shuffle is modelled lane by lane.
 */
module Gather {
  import opened Words
  import opened Rfc1321

  type Vec = seq<Word>

  /** The four adapters; each has its own register width. */
  datatype Isa = Neon4 | Neon8 | Avx2 | Avx512 {
    function Lanes(): (n: nat)
      ensures 4 <= n <= MAX_LANES
    {
      match this
      case Neon4 => 4
      case Neon8 => 8
      case Avx2 => 8
      case Avx512 => 16
    }
  }

  const MAX_LANES: nat := 16

  datatype Ptr = Null | Ptr(data: seq<Byte>, off: nat) {
    /** The 64 bytes that a gather may read. */
    predicate Readable() {
      Ptr? && off + 64 <= |data|
    }

    function Block(): (b: seq<Byte>)
      requires Readable()
      ensures |b| == 64
    {
      data[off..off + 64]
    }
  }

  /** A vector load of `count` words at byte offset `add` behind the pointer; it must stay inside the block. */
  function LoadRow(p: Ptr, add: nat, count: nat): (row: Vec)
    requires p.Readable() && add + 4 * count <= 64
    ensures |row| == count
  {
    seq(count, k requires 0 <= k < count => LoadLe(p.data, p.off + add + 4 * k))
  }

  lemma LoadRowWords(p: Ptr, add: nat, count: nat)
    requires p.Readable() && add % 4 == 0 && add + 4 * count <= 64
    ensures forall k :: 0 <= k < count ==> LoadRow(p, add, count)[k] == BlockWords(p.Block())[add / 4 + k]
  {
  }

  /** Rows are messages, columns are words: what every gather must return. */
  predicate Gathered(m: seq<Vec>, ptrs: seq<Ptr>, n: nat, lanes: nat)
    requires 1 <= n <= |ptrs| && (forall i :: 0 <= i < n ==> ptrs[i].Readable())
  {
    && |m| == 16
    && (forall w :: 0 <= w < 16 ==> |m[w]| == lanes)
    && (forall w, i :: 0 <= w < 16 && 0 <= i < lanes ==> m[w][i] == BlockWords(Source(ptrs, n, i).Block())[w])
  }

  /** The pointer of lane `i`: unused lanes repeat the last valid one. */
  function Source(ptrs: seq<Ptr>, n: nat, i: nat): Ptr
    requires 1 <= n <= |ptrs|
  {
    if i < n then ptrs[i] else ptrs[n - 1]
  }

  // ---- AVX2 shuffles on eight lanes ----

  function UnpackLo32<T>(a: seq<T>, b: seq<T>): seq<T>
    requires |a| == 8 && |b| == 8
  {
    [a[0], b[0], a[1], b[1], a[4], b[4], a[5], b[5]]
  }

  function UnpackHi32<T>(a: seq<T>, b: seq<T>): seq<T>
    requires |a| == 8 && |b| == 8
  {
    [a[2], b[2], a[3], b[3], a[6], b[6], a[7], b[7]]
  }

  function UnpackLo64<T>(a: seq<T>, b: seq<T>): seq<T>
    requires |a| == 8 && |b| == 8
  {
    [a[0], a[1], b[0], b[1], a[4], a[5], b[4], b[5]]
  }

  function UnpackHi64<T>(a: seq<T>, b: seq<T>): seq<T>
    requires |a| == 8 && |b| == 8
  {
    [a[2], a[3], b[2], b[3], a[6], a[7], b[6], b[7]]
  }

  /** `permute2x128::<0x20>`: the two low halves. */
  function LowHalves<T>(a: seq<T>, b: seq<T>): seq<T>
    requires |a| == 8 && |b| == 8
  {
    [a[0], a[1], a[2], a[3], b[0], b[1], b[2], b[3]]
  }

  /** `permute2x128::<0x31>`: the two high halves. */
  function HighHalves<T>(a: seq<T>, b: seq<T>): seq<T>
    requires |a| == 8 && |b| == 8
  {
    [a[4], a[5], a[6], a[7], b[4], b[5], b[6], b[7]]
  }

  /** `transpose8`. */
  function Transpose8<T>(r: seq<seq<T>>): seq<seq<T>>
    requires |r| == 8 && (forall i :: 0 <= i < 8 ==> |r[i]| == 8)
  {
    var t0 := UnpackLo32(r[0], r[1]);
    var t1 := UnpackHi32(r[0], r[1]);
    var t2 := UnpackLo32(r[2], r[3]);
    var t3 := UnpackHi32(r[2], r[3]);
    var t4 := UnpackLo32(r[4], r[5]);
    var t5 := UnpackHi32(r[4], r[5]);
    var t6 := UnpackLo32(r[6], r[7]);
    var t7 := UnpackHi32(r[6], r[7]);
    var u0 := UnpackLo64(t0, t2);
    var u1 := UnpackLo64(t1, t3);
    var u2 := UnpackHi64(t0, t2);
    var u3 := UnpackHi64(t1, t3);
    var u4 := UnpackLo64(t4, t6);
    var u5 := UnpackLo64(t5, t7);
    var u6 := UnpackHi64(t4, t6);
    var u7 := UnpackHi64(t5, t7);
    [LowHalves(u0, u4), LowHalves(u2, u6), LowHalves(u1, u5), LowHalves(u3, u7),
     HighHalves(u0, u4), HighHalves(u2, u6), HighHalves(u1, u5), HighHalves(u3, u7)]
  }

  /** The three shuffle stages together are the 8x8 transpose. */
  lemma Transpose8Transposes<T>(r: seq<seq<T>>)
    requires |r| == 8 && (forall i :: 0 <= i < 8 ==> |r[i]| == 8)
    ensures var t := Transpose8(r);
            && |t| == 8 && (forall w :: 0 <= w < 8 ==> |t[w]| == 8)
            && (forall w, i :: 0 <= w < 8 && 0 <= i < 8 ==> t[w][i] == r[i][w])
  {
  }

  // ---- NEON shuffles on four lanes ----

  /** The two results of `vtrnq_u32`. */
  function Trn0<T>(a: seq<T>, b: seq<T>): seq<T>
    requires |a| == 4 && |b| == 4
  {
    [a[0], b[0], a[2], b[2]]
  }

  function Trn1<T>(a: seq<T>, b: seq<T>): seq<T>
    requires |a| == 4 && |b| == 4
  {
    [a[1], b[1], a[3], b[3]]
  }

  /** `transpose4`: two `vtrn` pairs, then low and high halves combined. */
  function Transpose4<T>(r: seq<seq<T>>): seq<seq<T>>
    requires |r| == 4 && (forall i :: 0 <= i < 4 ==> |r[i]| == 4)
  {
    var t01 := (Trn0(r[0], r[1]), Trn1(r[0], r[1]));
    var t23 := (Trn0(r[2], r[3]), Trn1(r[2], r[3]));
    [t01.0[..2] + t23.0[..2], t01.1[..2] + t23.1[..2], t01.0[2..] + t23.0[2..], t01.1[2..] + t23.1[2..]]
  }

  lemma Transpose4Transposes<T>(r: seq<seq<T>>)
    requires |r| == 4 && (forall i :: 0 <= i < 4 ==> |r[i]| == 4)
    ensures var t := Transpose4(r);
            && |t| == 4 && (forall w :: 0 <= w < 4 ==> |t[w]| == 4)
            && (forall w, i :: 0 <= w < 4 && 0 <= i < 4 ==> t[w][i] == r[i][w])
  {
  }

  // ---- The gathers ----

  /** Column `w` of `t` holds word `first + w` of every pointer's block. */
  predicate Columns(t: seq<Vec>, src: seq<Ptr>, first: nat)
    requires forall i :: 0 <= i < |src| ==> src[i].Readable()
    requires first + |t| <= 16
  {
    && (forall w :: 0 <= w < |t| ==> |t[w]| == |src|)
    && (forall w, i :: 0 <= w < |t| && 0 <= i < |src| ==> t[w][i] == BlockWords(src[i].Block())[first + w])
  }

  lemma ColumnsOf8(rows: seq<Vec>, src: seq<Ptr>, first: nat)
    requires |rows| == 8 && |src| == 8 && first <= 8
    requires forall i :: 0 <= i < 8 ==> src[i].Readable()
    requires forall i :: 0 <= i < 8 ==> |rows[i]| == 8 && rows[i] == LoadRow(src[i], 4 * first, 8)
    ensures Columns(Transpose8(rows), src, first)
  {
    hide Transpose8, LoadRow, BlockWords, Ptr.Block;
    Transpose8Transposes(rows);
    forall i | 0 <= i < 8
      ensures forall w :: 0 <= w < 8 ==> rows[i][w] == BlockWords(src[i].Block())[first + w]
    {
      LoadRowWords(src[i], 4 * first, 8);
      assert 4 * first / 4 == first;
    }
  }

  lemma ColumnsOf4(rows: seq<Vec>, src: seq<Ptr>, first: nat)
    requires |rows| == 4 && |src| == 4 && first <= 12
    requires forall i :: 0 <= i < 4 ==> src[i].Readable()
    requires forall i :: 0 <= i < 4 ==> |rows[i]| == 4 && rows[i] == LoadRow(src[i], 4 * first, 4)
    ensures Columns(Transpose4(rows), src, first)
  {
    hide Transpose4, LoadRow, BlockWords, Ptr.Block;
    Transpose4Transposes(rows);
    forall i | 0 <= i < 4
      ensures forall w :: 0 <= w < 4 ==> rows[i][w] == BlockWords(src[i].Block())[first + w]
    {
      LoadRowWords(src[i], 4 * first, 4);
      assert 4 * first / 4 == first;
    }
  }

  /** The pointer preparation every gather begins with. */
  method SpreadPtrs(ptrs: seq<Ptr>, n: nat, lanes: nat) returns (p: array<Ptr>)
    requires 1 <= n <= lanes && n <= |ptrs|
    ensures fresh(p) && p.Length == lanes
    ensures forall i :: 0 <= i < lanes ==> p[i] == Source(ptrs, n, i)
  {
    var last := n - 1;
    p := new Ptr[lanes](_ => ptrs[last]);
    for i := 0 to n
      invariant forall k :: 0 <= k < i ==> p[k] == ptrs[k]
      invariant forall k :: i <= k < lanes ==> p[k] == ptrs[last]
    {
      p[i] := ptrs[i];
    }
  }

  /** Loads `count` words of the pointers `lo` to `hi - 1` at byte offset `add`. */
  method LoadRows(p: array<Ptr>, lo: nat, hi: nat, add: nat, count: nat) returns (rows: seq<Vec>)
    requires lo <= hi <= p.Length && add + 4 * count <= 64
    requires forall i :: lo <= i < hi ==> p[i].Readable()
    ensures |rows| == hi - lo
    ensures forall i :: 0 <= i < hi - lo ==> |rows[i]| == count && rows[i] == LoadRow(p[lo + i], add, count)
  {
    hide LoadRow;
    var buf := new Vec[hi - lo](_ => []);
    for i := 0 to hi - lo
      invariant forall k :: 0 <= k < i ==> |buf[k]| == count && buf[k] == LoadRow(p[lo + k], add, count)
      invariant forall k :: lo <= k < hi ==> p[k].Readable()
    {
      buf[i] := LoadRow(p[lo + i], add, count);
    }
    rows := buf[..];
  }

  lemma ColumnsGathered(m: seq<Vec>, src: seq<Ptr>, ptrs: seq<Ptr>, n: nat)
    requires 1 <= n <= |ptrs| && (forall i :: 0 <= i < n ==> ptrs[i].Readable())
    requires forall i :: 0 <= i < |src| ==> src[i] == Source(ptrs, n, i) && src[i].Readable()
    requires |m| == 16 && Columns(m, src, 0)
    ensures Gathered(m, ptrs, n, |src|)
  {
    hide BlockWords, Ptr.Block;
  }

  /** Word groups side by side. */
  lemma JoinColumns(a: seq<Vec>, b: seq<Vec>, src: seq<Ptr>, first: nat)
    requires forall i :: 0 <= i < |src| ==> src[i].Readable()
    requires first + |a| + |b| <= 16
    requires Columns(a, src, first) && Columns(b, src, first + |a|)
    ensures Columns(a + b, src, first)
  {
    hide BlockWords, Ptr.Block, Ptr.Readable;
    forall w, i | 0 <= w < |a + b| && 0 <= i < |src|
      ensures |(a + b)[w]| == |src| && (a + b)[w][i] == BlockWords(src[i].Block())[first + w]
    {
      if w < |a| {
        assert a[w][i] == BlockWords(src[i].Block())[first + w];
      } else {
        assert b[w - |a|][i] == BlockWords(src[i].Block())[first + |a| + (w - |a|)];
      }
    }
  }

  /** Two register halves: lanes of `lo` below, lanes of `hi` above. */
  function Halves(lo: seq<Vec>, hi: seq<Vec>): (t: seq<Vec>)
    requires |lo| == |hi|
    ensures |t| == |lo|
  {
    seq(|lo|, j requires 0 <= j < |lo| => lo[j] + hi[j])
  }

  lemma JoinHalves(lo: seq<Vec>, hi: seq<Vec>, src: seq<Ptr>, half: nat, first: nat)
    requires half <= |src| && (forall i :: 0 <= i < |src| ==> src[i].Readable())
    requires |lo| == |hi| && first + |lo| <= 16
    requires Columns(lo, src[..half], first) && Columns(hi, src[half..], first)
    ensures Columns(Halves(lo, hi), src, first)
  {
    hide BlockWords, Ptr.Block, Ptr.Readable;
    forall w, i | 0 <= w < |lo| && 0 <= i < |src|
      ensures |Halves(lo, hi)[w]| == |src| && Halves(lo, hi)[w][i] == BlockWords(src[i].Block())[first + w]
    {
      if i < half {
        assert lo[w][i] == BlockWords(src[..half][i].Block())[first + w];
      } else {
        assert hi[w][i - half] == BlockWords(src[half..][i - half].Block())[first + w];
      }
    }
  }

  /** `gather_avx2`: two transposes of eight rows, words 0 to 7 and 8 to 15. */
  method GatherAvx2(ptrs: seq<Ptr>, n: nat) returns (m: seq<Vec>)
    requires 1 <= n <= 8 && n <= |ptrs| && (forall i :: 0 <= i < n ==> ptrs[i].Readable())
    ensures Gathered(m, ptrs, n, 8)
  {
    hide Transpose8, LoadRow, BlockWords, Ptr.Block, Columns;
    var p := SpreadPtrs(ptrs, n, 8);
    var rows := LoadRows(p, 0, 8, 0, 8);
    ColumnsOf8(rows, p[..], 0);
    Transpose8Transposes(rows);
    var w0 := Transpose8(rows);
    rows := LoadRows(p, 0, 8, 32, 8);
    ColumnsOf8(rows, p[..], 8);
    Transpose8Transposes(rows);
    var w8 := Transpose8(rows);
    m := w0 + w8;
    JoinColumns(w0, w8, p[..], 0);
    ColumnsGathered(m, p[..], ptrs, n);
  }

  /** Eight words of sixteen pointers: two transposes joined by `inserti64x4`. */
  method DualTranspose8(p: array<Ptr>, first: nat) returns (m: seq<Vec>)
    requires p.Length == 16 && first <= 8 && (forall i :: 0 <= i < 16 ==> p[i].Readable())
    ensures |m| == 8 && Columns(m, p[..], first)
  {
    hide Transpose8, LoadRow, BlockWords, Ptr.Block, Columns, Ptr.Readable;
    var loRows := LoadRows(p, 0, 8, 4 * first, 8);
    var hiRows := LoadRows(p, 8, 16, 4 * first, 8);
    ColumnsOf8(loRows, p[..8], first);
    ColumnsOf8(hiRows, p[8..], first);
    Transpose8Transposes(loRows);
    Transpose8Transposes(hiRows);
    var lo, hi := Transpose8(loRows), Transpose8(hiRows);
    JoinHalves(lo, hi, p[..], 8, first);
    m := Halves(lo, hi);
  }

  /** `gather_avx512`. */
  method GatherAvx512(ptrs: seq<Ptr>, n: nat) returns (m: seq<Vec>)
    requires 1 <= n <= 16 && n <= |ptrs| && (forall i :: 0 <= i < n ==> ptrs[i].Readable())
    ensures Gathered(m, ptrs, n, 16)
  {
    hide BlockWords, Ptr.Block, Columns;
    var p := SpreadPtrs(ptrs, n, 16);
    var w0 := DualTranspose8(p, 0);
    var w8 := DualTranspose8(p, 8);
    m := w0 + w8;
    JoinColumns(w0, w8, p[..], 0);
    ColumnsGathered(m, p[..], ptrs, n);
  }

  /** `gather_neon4`: four words of four pointers at a time. */
  method GatherNeon4(ptrs: seq<Ptr>, n: nat) returns (m: seq<Vec>)
    requires 1 <= n <= 4 && n <= |ptrs| && (forall i :: 0 <= i < n ==> ptrs[i].Readable())
    ensures Gathered(m, ptrs, n, 4)
  {
    hide Transpose4, LoadRow, BlockWords, Ptr.Block, Columns;
    var p := SpreadPtrs(ptrs, n, 4);
    m := [];
    NoColumns(p[..]);
    var w := 0;
    while w < 16
      invariant w % 4 == 0 && w <= 16 && |m| == w
      invariant forall i :: 0 <= i < 4 ==> p[i] == Source(ptrs, n, i)
      invariant Columns(m, p[..], 0)
    {
      var rows := LoadRows(p, 0, 4, w * 4, 4);
      ColumnsOf4(rows, p[..], w);
      Transpose4Transposes(rows);
      JoinColumns(m, Transpose4(rows), p[..], 0);
      m := m + Transpose4(rows);
      w := w + 4;
    }
    ColumnsGathered(m, p[..], ptrs, n);
  }

  lemma NoColumns(src: seq<Ptr>)
    requires forall i :: 0 <= i < |src| ==> src[i].Readable()
    ensures Columns([], src, 0)
  {
  }

  /** `gather_block` of `neon8.rs`: a 4x4 transpose for each half of a register pair. */
  method GatherNeon8(ptrs: seq<Ptr>, n: nat) returns (m: seq<Vec>)
    requires 1 <= n <= 8 && n <= |ptrs| && (forall i :: 0 <= i < n ==> ptrs[i].Readable())
    ensures Gathered(m, ptrs, n, 8)
  {
    hide Transpose4, LoadRow, BlockWords, Ptr.Block, Columns;
    var p := SpreadPtrs(ptrs, n, 8);
    m := [];
    NoColumns(p[..]);
    var w := 0;
    while w < 16
      invariant w % 4 == 0 && w <= 16 && |m| == w
      invariant forall i :: 0 <= i < 8 ==> p[i] == Source(ptrs, n, i)
      invariant Columns(m, p[..], 0)
    {
      var loRows := LoadRows(p, 0, 4, w * 4, 4);
      var hiRows := LoadRows(p, 4, 8, w * 4, 4);
      ColumnsOf4(loRows, p[..4], w);
      ColumnsOf4(hiRows, p[4..], w);
      Transpose4Transposes(loRows);
      Transpose4Transposes(hiRows);
      var pairs := Halves(Transpose4(loRows), Transpose4(hiRows));
      JoinHalves(Transpose4(loRows), Transpose4(hiRows), p[..], 4, w);
      JoinColumns(m, pairs, p[..], 0);
      m := m + pairs;
      w := w + 4;
    }
    ColumnsGathered(m, p[..], ptrs, n);
  }

  /** `Wide::gather_block` for every adapter: word `w` of lane `i` is word `w` of the block of lane min(i, n - 1). */
  method GatherBlock(isa: Isa, ptrs: seq<Ptr>, n: nat) returns (m: seq<Vec>)
    requires 1 <= n <= isa.Lanes() && n <= |ptrs| && (forall i :: 0 <= i < n ==> ptrs[i].Readable())
    ensures Gathered(m, ptrs, n, isa.Lanes())
  {
    hide Gathered;
    match isa
    case Neon4 => m := GatherNeon4(ptrs, n);
    case Neon8 => m := GatherNeon8(ptrs, n);
    case Avx2 => m := GatherAvx2(ptrs, n);
    case Avx512 => m := GatherAvx512(ptrs, n);
  }
}
