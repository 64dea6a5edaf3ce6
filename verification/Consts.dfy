/** The RFC 1321 tables of `src/consts.rs`: initial vector, K, S, message order and destination cycle. */
module Consts {
  import opened Words

  /** An index into the sixteen message words. */
  type WordIndex = i: nat | i < 16

  /** A rotation amount for which both shifts of `ShiftOr` are proper. */
  type Amount = r: nat | 0 < r < 32 witness 1

  const STATE_INIT: seq<Word> := [0x6745_2301, 0xefcd_ab89, 0x98ba_dcfe, 0x1032_5476]

  function K(i: nat): Word
    requires i < 64
  {
    if i < 16 then (
      match i
      case 0 => 0xd76a_a478 case 1 => 0xe8c7_b756 case 2 => 0x2420_70db case 3 => 0xc1bd_ceee
      case 4 => 0xf57c_0faf case 5 => 0x4787_c62a case 6 => 0xa830_4613 case 7 => 0xfd46_9501
      case 8 => 0x6980_98d8 case 9 => 0x8b44_f7af case 10 => 0xffff_5bb1 case 11 => 0x895c_d7be
      case 12 => 0x6b90_1122 case 13 => 0xfd98_7193 case 14 => 0xa679_438e case _ => 0x49b4_0821
    ) else if i < 32 then (
      match i
      case 16 => 0xf61e_2562 case 17 => 0xc040_b340 case 18 => 0x265e_5a51 case 19 => 0xe9b6_c7aa
      case 20 => 0xd62f_105d case 21 => 0x0244_1453 case 22 => 0xd8a1_e681 case 23 => 0xe7d3_fbc8
      case 24 => 0x21e1_cde6 case 25 => 0xc337_07d6 case 26 => 0xf4d5_0d87 case 27 => 0x455a_14ed
      case 28 => 0xa9e3_e905 case 29 => 0xfcef_a3f8 case 30 => 0x676f_02d9 case _ => 0x8d2a_4c8a
    ) else if i < 48 then (
      match i
      case 32 => 0xfffa_3942 case 33 => 0x8771_f681 case 34 => 0x6d9d_6122 case 35 => 0xfde5_380c
      case 36 => 0xa4be_ea44 case 37 => 0x4bde_cfa9 case 38 => 0xf6bb_4b60 case 39 => 0xbebf_bc70
      case 40 => 0x289b_7ec6 case 41 => 0xeaa1_27fa case 42 => 0xd4ef_3085 case 43 => 0x0488_1d05
      case 44 => 0xd9d4_d039 case 45 => 0xe6db_99e5 case 46 => 0x1fa2_7cf8 case _ => 0xc4ac_5665
    ) else (
      match i
      case 48 => 0xf429_2244 case 49 => 0x432a_ff97 case 50 => 0xab94_23a7 case 51 => 0xfc93_a039
      case 52 => 0x655b_59c3 case 53 => 0x8f0c_cc92 case 54 => 0xffef_f47d case 55 => 0x8584_5dd1
      case 56 => 0x6fa8_7e4f case 57 => 0xfe2c_e6e0 case 58 => 0xa301_4314 case 59 => 0x4e08_11a1
      case 60 => 0xf753_7e82 case 61 => 0xbd3a_f235 case 62 => 0x2ad7_d2bb case _ => 0xeb86_d391
    )
  }

  function S(i: nat): Amount
    requires i < 64
  {
    if i < 16 then (
      match i
      case 0 => 7 case 1 => 12 case 2 => 17 case 3 => 22 case 4 => 7 case 5 => 12 case 6 => 17 case 7 => 22
      case 8 => 7 case 9 => 12 case 10 => 17 case 11 => 22 case 12 => 7 case 13 => 12 case 14 => 17 case _ => 22
    ) else if i < 32 then (
      match i
      case 16 => 5 case 17 => 9 case 18 => 14 case 19 => 20 case 20 => 5 case 21 => 9 case 22 => 14 case 23 => 20
      case 24 => 5 case 25 => 9 case 26 => 14 case 27 => 20 case 28 => 5 case 29 => 9 case 30 => 14 case _ => 20
    ) else if i < 48 then (
      match i
      case 32 => 4 case 33 => 11 case 34 => 16 case 35 => 23 case 36 => 4 case 37 => 11 case 38 => 16 case 39 => 23
      case 40 => 4 case 41 => 11 case 42 => 16 case 43 => 23 case 44 => 4 case 45 => 11 case 46 => 16 case _ => 23
    ) else (
      match i
      case 48 => 6 case 49 => 10 case 50 => 15 case 51 => 21 case 52 => 6 case 53 => 10 case 54 => 15 case 55 => 21
      case 56 => 6 case 57 => 10 case 58 => 15 case 59 => 21 case 60 => 6 case 61 => 10 case 62 => 15 case _ => 21
    )
  }

  function MSG(i: nat): WordIndex
    requires i < 64
  {
    if i < 16 then (
      match i
      case 0 => 0 case 1 => 1 case 2 => 2 case 3 => 3 case 4 => 4 case 5 => 5 case 6 => 6 case 7 => 7
      case 8 => 8 case 9 => 9 case 10 => 10 case 11 => 11 case 12 => 12 case 13 => 13 case 14 => 14 case _ => 15
    ) else if i < 32 then (
      match i
      case 16 => 1 case 17 => 6 case 18 => 11 case 19 => 0 case 20 => 5 case 21 => 10 case 22 => 15 case 23 => 4
      case 24 => 9 case 25 => 14 case 26 => 3 case 27 => 8 case 28 => 13 case 29 => 2 case 30 => 7 case _ => 12
    ) else if i < 48 then (
      match i
      case 32 => 5 case 33 => 8 case 34 => 11 case 35 => 14 case 36 => 1 case 37 => 4 case 38 => 7 case 39 => 10
      case 40 => 13 case 41 => 0 case 42 => 3 case 43 => 6 case 44 => 9 case 45 => 12 case 46 => 15 case _ => 2
    ) else (
      match i
      case 48 => 0 case 49 => 7 case 50 => 14 case 51 => 5 case 52 => 12 case 53 => 3 case 54 => 10 case 55 => 1
      case 56 => 8 case 57 => 15 case 58 => 6 case 59 => 13 case 60 => 4 case 61 => 11 case 62 => 2 case _ => 9
    )
  }

  /** The register that step `i` writes. */
  function DEST(i: nat): (r: nat)
    ensures r < 4
  {
    match i % 4
    case 0 => 0
    case 1 => 3
    case 2 => 2
    case _ => 1
  }

  // ---- Rows of the tables, for kernels that write the entries out ----

  lemma RowF()
    ensures MSG(0) == 0 && MSG(1) == 1 && MSG(2) == 2 && MSG(3) == 3 && MSG(4) == 4 && MSG(5) == 5 && MSG(6) == 6 && MSG(7) == 7
            && MSG(8) == 8 && MSG(9) == 9 && MSG(10) == 10 && MSG(11) == 11 && MSG(12) == 12 && MSG(13) == 13 && MSG(14) == 14 && MSG(15) == 15
    ensures S(0) == 7 && S(1) == 12 && S(2) == 17 && S(3) == 22 && S(4) == 7 && S(5) == 12 && S(6) == 17 && S(7) == 22
            && S(8) == 7 && S(9) == 12 && S(10) == 17 && S(11) == 22 && S(12) == 7 && S(13) == 12 && S(14) == 17 && S(15) == 22
  {
  }

  lemma RowG()
    ensures MSG(16) == 1 && MSG(17) == 6 && MSG(18) == 11 && MSG(19) == 0 && MSG(20) == 5 && MSG(21) == 10 && MSG(22) == 15 && MSG(23) == 4
            && MSG(24) == 9 && MSG(25) == 14 && MSG(26) == 3 && MSG(27) == 8 && MSG(28) == 13 && MSG(29) == 2 && MSG(30) == 7 && MSG(31) == 12
    ensures S(16) == 5 && S(17) == 9 && S(18) == 14 && S(19) == 20 && S(20) == 5 && S(21) == 9 && S(22) == 14 && S(23) == 20
            && S(24) == 5 && S(25) == 9 && S(26) == 14 && S(27) == 20 && S(28) == 5 && S(29) == 9 && S(30) == 14 && S(31) == 20
  {
  }

  lemma RowH()
    ensures MSG(32) == 5 && MSG(33) == 8 && MSG(34) == 11 && MSG(35) == 14 && MSG(36) == 1 && MSG(37) == 4 && MSG(38) == 7 && MSG(39) == 10
            && MSG(40) == 13 && MSG(41) == 0 && MSG(42) == 3 && MSG(43) == 6 && MSG(44) == 9 && MSG(45) == 12 && MSG(46) == 15 && MSG(47) == 2
    ensures S(32) == 4 && S(33) == 11 && S(34) == 16 && S(35) == 23 && S(36) == 4 && S(37) == 11 && S(38) == 16 && S(39) == 23
            && S(40) == 4 && S(41) == 11 && S(42) == 16 && S(43) == 23 && S(44) == 4 && S(45) == 11 && S(46) == 16 && S(47) == 23
  {
  }

  lemma RowI()
    ensures MSG(48) == 0 && MSG(49) == 7 && MSG(50) == 14 && MSG(51) == 5 && MSG(52) == 12 && MSG(53) == 3 && MSG(54) == 10 && MSG(55) == 1
            && MSG(56) == 8 && MSG(57) == 15 && MSG(58) == 6 && MSG(59) == 13 && MSG(60) == 4 && MSG(61) == 11 && MSG(62) == 2 && MSG(63) == 9
    ensures S(48) == 6 && S(49) == 10 && S(50) == 15 && S(51) == 21 && S(52) == 6 && S(53) == 10 && S(54) == 15 && S(55) == 21
            && S(56) == 6 && S(57) == 10 && S(58) == 15 && S(59) == 21 && S(60) == 6 && S(61) == 10 && S(62) == 15 && S(63) == 21
  {
  }
}
