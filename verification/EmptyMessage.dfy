/** The digest of the empty message that `src/backend.rs` returns as a constant, recomputed step by step. */
module EmptyMessage {
  import opened Words
  import opened Consts
  import opened Rfc1321
  import opened Kernels
  import ByteValues

  /** `empty_digest`: the constant the code returns for the empty message. */
  const EMPTY_DIGEST: seq<Byte> := [
    0xd4, 0x1d, 0x8c, 0xd9, 0x8f, 0x00, 0xb2, 0x04, 0xe9, 0x80, 0x09, 0x98, 0xec, 0xf8, 0x42, 0x7e
  ]

  /** The message words of the only block of the padded empty message. */
  function EmptyWords(): (m: seq<Word>)
    ensures |m| == 16
  {
    [0x80, 0, 0, 0, 0, 0, 0, 0, 0, 0, 0, 0, 0, 0, 0, 0]
  }

  lemma FourSteps(start: State, m: seq<Word>, k: nat)
    requires |m| == 16 && k + 4 <= 64
    ensures Steps(start, m, k + 4)
            == Step(Step(Step(Step(Steps(start, m, k), m, k), m, k + 1), m, k + 2), m, k + 3)
  {
    hide Step;
    assert Steps(start, m, k + 3) == Step(Steps(start, m, k + 2), m, k + 2);
    assert Steps(start, m, k + 2) == Step(Steps(start, m, k + 1), m, k + 1);
  }

  /** One step with its intermediate values supplied. */
  lemma StepValue(r: State, w: Word, i: nat, mix: Word, sum: Word, rot: Word, b: Word)
    requires i < 64 && EmptyWords()[MSG(i)] == w && Mix(i, r.b, r.c, r.d) == mix
    requires Add(Add(Add(r.a, mix), K(i)), w) == sum && Rotl(sum, S(i)) == rot && Add(r.b, rot) == b
    ensures Step(r, EmptyWords(), i) == State(r.d, b, r.b, r.c)
  {
    hide Add, Rotl, K, S, MSG, Mix, EmptyWords;
  }

  lemma EmptyQuad0()
    ensures var m := EmptyWords();
            Step(Step(Step(Step(State(0x67452301, 0xefcdab89, 0x98badcfe, 0x10325476), m, 0), m, 1), m, 2), m, 3)
            == State(0xa5202774, 0x1b163203, 0xe7f06b23, 0xf59592dd)
  {
    hide Step;
    StepValue(State(0x67452301, 0xefcdab89, 0x98badcfe, 0x10325476), 0x00000080, 0, 0x98badcfe, 0xd76aa4f7, 0xb5527beb, 0xa5202774);
    StepValue(State(0x10325476, 0xa5202774, 0xefcdab89, 0x98badcfe), 0x00000000, 1, 0xbd9afb8a, 0xb6950756, 0x50756b69, 0xf59592dd);
    StepValue(State(0x98badcfe, 0xf59592dd, 0xa5202774, 0xefcdab89), 0x00000000, 2, 0xaf482b54, 0x6c23792d, 0xf25ad846, 0xe7f06b23);
    StepValue(State(0xefcdab89, 0xe7f06b23, 0xf59592dd, 0xa5202774), 0x00000000, 3, 0xe5900655, 0x971b80cc, 0x3325c6e0, 0x1b163203);
  }

  lemma EmptyQuad1()
    ensures var m := EmptyWords();
            Step(Step(Step(Step(State(0xa5202774, 0x1b163203, 0xe7f06b23, 0xf59592dd), m, 4), m, 5), m, 6), m, 7)
            == State(0x32033344, 0x9bc13ce9, 0xf5b158db, 0x2f35d494)
  {
    hide Step;
    StepValue(State(0xa5202774, 0x1b163203, 0xe7f06b23, 0xf59592dd), 0x00000000, 4, 0xe791a2df, 0x822dda02, 0x16ed0141, 0x32033344);
    StepValue(State(0xf59592dd, 0x32033344, 0x1b163203, 0xe7f06b23), 0x00000000, 5, 0xd7f27a23, 0x150fd32a, 0xfd32a150, 0x2f35d494);
    StepValue(State(0xe7f06b23, 0x2f35d494, 0x32033344, 0x1b163203), 0x00000000, 6, 0x32033207, 0xc223e33d, 0xc67b8447, 0xf5b158db);
    StepValue(State(0x1b163203, 0xf5b158db, 0x2f35d494, 0x32033344), 0x00000000, 7, 0x27337394, 0x3f903a98, 0xa60fe40e, 0x9bc13ce9);
  }

  lemma EmptyQuad2()
    ensures var m := EmptyWords();
            Step(Step(Step(Step(State(0x32033344, 0x9bc13ce9, 0xf5b158db, 0x2f35d494), m, 8), m, 9), m, 10), m, 11)
            == State(0x3893b991, 0x70768a29, 0xe1ef0576, 0xfce4a312)
  {
    hide Step;
    StepValue(State(0x32033344, 0x9bc13ce9, 0xf5b158db, 0x2f35d494), 0x00000000, 8, 0xb5b5d8dd, 0x5139a4f9, 0x9cd27ca8, 0x3893b991);
    StepValue(State(0x2f35d494, 0x3893b991, 0x9bc13ce9, 0xf5b158db), 0x00000000, 9, 0xdda178cb, 0x981c450e, 0xc450e981, 0xfce4a312);
    StepValue(State(0xf5b158db, 0xfce4a312, 0x3893b991, 0x9bc13ce9), 0x00000000, 10, 0x3b81bdf9, 0x31327285, 0xe50a6264, 0xe1ef0576);
    StepValue(State(0x9bc13ce9, 0xe1ef0576, 0xfce4a312, 0x3893b991), 0x00000000, 11, 0xf8f4b993, 0x1e12ce3a, 0x8e8784b3, 0x70768a29);
  }

  lemma EmptyQuad3()
    ensures var m := EmptyWords();
            Step(Step(Step(Step(State(0x3893b991, 0x70768a29, 0xe1ef0576, 0xfce4a312), m, 12), m, 13), m, 14), m, 15)
            == State(0xf56c7cf1, 0xd6819c6a, 0x5aa53f75, 0x374943a7)
  {
    hide Step;
    StepValue(State(0x3893b991, 0x70768a29, 0xe1ef0576, 0xfce4a312), 0x00000000, 12, 0xece62132, 0x9109ebe5, 0x84f5f2c8, 0xf56c7cf1);
    StepValue(State(0xfce4a312, 0xf56c7cf1, 0x70768a29, 0xe1ef0576), 0x00000000, 13, 0x70e70927, 0x6b641dcc, 0x41dcc6b6, 0x374943a7);
    StepValue(State(0xe1ef0576, 0x374943a7, 0xf56c7cf1, 0x70768a29), 0x00000000, 14, 0x757ec8a9, 0xfde711ad, 0x235bfbce, 0x5aa53f75);
    StepValue(State(0x70768a29, 0x5aa53f75, 0x374943a7, 0xf56c7cf1), 0x00000000, 15, 0xb74943a5, 0x7173d5ef, 0x7bdc5cf5, 0xd6819c6a);
  }

  lemma EmptyQuad4()
    ensures var m := EmptyWords();
            Step(Step(Step(Step(State(0xf56c7cf1, 0xd6819c6a, 0x5aa53f75, 0x374943a7), m, 16), m, 17), m, 18), m, 19)
            == State(0x1c7d7513, 0xbd782e17, 0xc095f13a, 0x7bd57a3a)
  {
    hide Step;
    StepValue(State(0xf56c7cf1, 0xd6819c6a, 0x5aa53f75, 0x374943a7), 0x00000000, 16, 0x5ea53c72, 0x4a2fdec5, 0x45fbd8a9, 0x1c7d7513);
    StepValue(State(0x374943a7, 0x1c7d7513, 0xd6819c6a, 0x5aa53f75), 0x00000000, 17, 0x9c25b51b, 0x93afac02, 0x5f580527, 0x7bd57a3a);
    StepValue(State(0x5aa53f75, 0x7bd57a3a, 0x1c7d7513, 0xd6819c6a), 0x00000000, 18, 0x5afd793b, 0xdc011301, 0x44c07700, 0xc095f13a);
    StepValue(State(0xd6819c6a, 0xc095f13a, 0x7bd57a3a, 0x1c7d7513), 0x00000080, 19, 0x63957b3a, 0x23cddfce, 0xfce23cdd, 0xbd782e17);
  }

  lemma EmptyQuad5()
    ensures var m := EmptyWords();
            Step(Step(Step(Step(State(0x1c7d7513, 0xbd782e17, 0xc095f13a, 0x7bd57a3a), m, 20), m, 21), m, 22), m, 23)
            == State(0x3d1e3e6c, 0xe422531a, 0xeb41643e, 0x68b7b3e3)
  {
    hide Step;
    StepValue(State(0x1c7d7513, 0xbd782e17, 0xc095f13a, 0x7bd57a3a), 0x00000000, 20, 0xb950ab12, 0xabfd3082, 0x7fa61055, 0x3d1e3e6c);
    StepValue(State(0x7bd57a3a, 0x3d1e3e6c, 0xbd782e17, 0xc095f13a), 0x00000000, 21, 0x3d7c3e2d, 0xbb95ccba, 0x2b997577, 0x68b7b3e3);
    StepValue(State(0xc095f13a, 0x68b7b3e3, 0x3d1e3e6c, 0xbd782e17), 0x00000000, 22, 0x2836326b, 0xc16e0a26, 0x8289b05b, 0xeb41643e);
    StepValue(State(0xbd782e17, 0xeb41643e, 0x68b7b3e3, 0x3d1e3e6c), 0x00000000, 23, 0x69a1a5af, 0x0eedcf8e, 0xf8e0eedc, 0xe422531a);
  }

  lemma EmptyQuad6()
    ensures var m := EmptyWords();
            Step(Step(Step(Step(State(0x3d1e3e6c, 0xe422531a, 0xeb41643e, 0x68b7b3e3), m, 24), m, 25), m, 26), m, 27)
            == State(0x306ec122, 0xa0572807, 0xa3c663da, 0xd28c77c2)
  {
    hide Step;
    StepValue(State(0x3d1e3e6c, 0xe422531a, 0xeb41643e, 0x68b7b3e3), 0x00000000, 24, 0xe362571e, 0x42626370, 0x4c4c6e08, 0x306ec122);
    StepValue(State(0x68b7b3e3, 0x306ec122, 0xe422531a, 0xeb41643e), 0x00000000, 25, 0x24625322, 0x50510edb, 0xa21db6a0, 0xd28c77c2);
    StepValue(State(0xeb41643e, 0xd28c77c2, 0x306ec122, 0xe422531a), 0x00000000, 26, 0xd04cd322, 0xb06344e7, 0xd139ec18, 0xa3c663da);
    StepValue(State(0xe422531a, 0xa3c663da, 0xd28c77c2, 0x306ec122), 0x00000000, 27, 0xe2c677c2, 0x0c42dfc9, 0xfc90c42d, 0xa0572807);
  }

  lemma EmptyQuad7()
    ensures var m := EmptyWords();
            Step(Step(Step(Step(State(0x306ec122, 0xa0572807, 0xa3c663da, 0xd28c77c2), m, 28), m, 29), m, 30), m, 31)
            == State(0x13707036, 0xa2205f1f, 0x1c31c384, 0xae7813db)
  {
    hide Step;
    StepValue(State(0x306ec122, 0xa0572807, 0xa3c663da, 0xd28c77c2), 0x00000000, 28, 0xa146201a, 0x7b98ca41, 0x7319482f, 0x13707036);
    StepValue(State(0xd28c77c2, 0x13707036, 0xa0572807, 0xa3c663da), 0x00000000, 29, 0x03516817, 0xd2cd83d1, 0x9b07a3a5, 0xae7813db);
    StepValue(State(0xa3c663da, 0xae7813db, 0x13707036, 0xa0572807), 0x00000000, 30, 0xb3705033, 0xbea5b6e6, 0x6db9afa9, 0x1c31c384);
    StepValue(State(0xa0572807, 0x1c31c384, 0xae7813db, 0x13707036), 0x00000000, 31, 0xbc3843cd, 0xe9b9b85e, 0x85ee9b9b, 0xa2205f1f);
  }

  lemma EmptyQuad8()
    ensures var m := EmptyWords();
            Step(Step(Step(Step(State(0x13707036, 0xa2205f1f, 0x1c31c384, 0xae7813db), m, 32), m, 33), m, 34), m, 35)
            == State(0xdf63eaa1, 0x004b6669, 0x12f3e755, 0xc3689f5b)
  {
    hide Step;
    StepValue(State(0x13707036, 0xa2205f1f, 0x1c31c384, 0xae7813db), 0x00000000, 32, 0x10698f40, 0x23d438b8, 0x3d438b82, 0xdf63eaa1);
    StepValue(State(0xae7813db, 0xdf63eaa1, 0xa2205f1f, 0x1c31c384), 0x00000000, 33, 0x6172763a, 0x975c8096, 0xe404b4ba, 0xc3689f5b);
    StepValue(State(0x1c31c384, 0xc3689f5b, 0xdf63eaa1, 0xa2205f1f), 0x00000000, 34, 0xbe2b2ae5, 0x47fa4f8b, 0x4f8b47fa, 0x12f3e755);
    StepValue(State(0xa2205f1f, 0x12f3e755, 0xc3689f5b, 0xdf63eaa1), 0x00000000, 35, 0x0ef892af, 0xaefe29da, 0xed577f14, 0x004b6669);
  }

  lemma EmptyQuad9()
    ensures var m := EmptyWords();
            Step(Step(Step(Step(State(0xdf63eaa1, 0x004b6669, 0x12f3e755, 0xc3689f5b), m, 36), m, 37), m, 38), m, 39)
            == State(0x5f7a9b2e, 0xc5dc8c15, 0x91ca4cb7, 0xabc34e16)
  {
    hide Step;
    StepValue(State(0xdf63eaa1, 0x004b6669, 0x12f3e755, 0xc3689f5b), 0x00000000, 36, 0xd1d01e67, 0x55f2f34c, 0x5f2f34c5, 0x5f7a9b2e);
    StepValue(State(0xc3689f5b, 0x5f7a9b2e, 0x004b6669, 0x12f3e755), 0x00000000, 37, 0x4dc21a12, 0x5d098916, 0x4c48b2e8, 0xabc34e16);
    StepValue(State(0x12f3e755, 0xabc34e16, 0x5f7a9b2e, 0x004b6669), 0x00000000, 38, 0xf4f2b351, 0xfea1e606, 0xe606fea1, 0x91ca4cb7);
    StepValue(State(0x004b6669, 0x91ca4cb7, 0xabc34e16, 0x5f7a9b2e), 0x00000000, 39, 0x6573998f, 0x247ebc68, 0x34123f5e, 0xc5dc8c15);
  }

  lemma EmptyQuad10()
    ensures var m := EmptyWords();
            Step(Step(Step(Step(State(0x5f7a9b2e, 0xc5dc8c15, 0x91ca4cb7, 0xabc34e16), m, 40), m, 41), m, 42), m, 43)
            == State(0x4497169d, 0x0fe32453, 0xfd95f243, 0x76fd93d4)
  {
    hide Step;
    StepValue(State(0x5f7a9b2e, 0xc5dc8c15, 0x91ca4cb7, 0xabc34e16), 0x00000000, 40, 0xffd58eb4, 0x87eba8a8, 0x7eba8a88, 0x4497169d);
    StepValue(State(0xabc34e16, 0x4497169d, 0xc5dc8c15, 0x91ca4cb7), 0x00000080, 41, 0x1081d63f, 0xa6e64ccf, 0x32667d37, 0x76fd93d4);
    StepValue(State(0x91ca4cb7, 0x76fd93d4, 0x4497169d, 0xc5dc8c15), 0x00000000, 42, 0xf7b6095c, 0x5e6f8698, 0x86985e6f, 0xfd95f243);
    StepValue(State(0xc5dc8c15, 0xfd95f243, 0x76fd93d4, 0x4497169d), 0x00000000, 43, 0xcfff770a, 0x9a642024, 0x124d3210, 0x0fe32453);
  }

  lemma EmptyQuad11()
    ensures var m := EmptyWords();
            Step(Step(Step(Step(State(0x4497169d, 0x0fe32453, 0xfd95f243, 0x76fd93d4), m, 44), m, 45), m, 46), m, 47)
            == State(0x3f55edfd, 0xca7d2dbd, 0x68d84ea2, 0x22a31f54)
  {
    hide Step;
    StepValue(State(0x4497169d, 0x0fe32453, 0xfd95f243, 0x76fd93d4), 0x00000000, 44, 0x848b45c4, 0xa2f72c9a, 0x2f72c9aa, 0x3f55edfd);
    StepValue(State(0x76fd93d4, 0x3f55edfd, 0x0fe32453, 0xfd95f243), 0x00000000, 45, 0xcd233bed, 0x2afc69a6, 0xe34d3157, 0x22a31f54);
    StepValue(State(0xfd95f243, 0x22a31f54, 0x3f55edfd, 0x0fe32453), 0x00000000, 46, 0x1215d6fa, 0x2f4e4635, 0x46352f4e, 0x68d84ea2);
    StepValue(State(0x0fe32453, 0x68d84ea2, 0x22a31f54, 0x3f55edfd), 0x00000000, 47, 0x752ebc0b, 0x49be36c3, 0x61a4df1b, 0xca7d2dbd);
  }

  lemma EmptyQuad12()
    ensures var m := EmptyWords();
            Step(Step(Step(Step(State(0x3f55edfd, 0xca7d2dbd, 0x68d84ea2, 0x22a31f54), m, 48), m, 49), m, 50), m, 51)
            == State(0x93aa2577, 0x561e0689, 0xcd85b8cb, 0x1688dc85)
  {
    hide Step;
    StepValue(State(0x3f55edfd, 0xca7d2dbd, 0x68d84ea2, 0x22a31f54), 0x00000080, 48, 0xb7a5a31d, 0xeb24b3de, 0xc92cf7ba, 0x93aa2577);
    StepValue(State(0x22a31f54, 0x93aa2577, 0xca7d2dbd, 0x68d84ea2), 0x00000000, 49, 0x5dd298c2, 0xc3a0b7ad, 0x82deb70e, 0x1688dc85);
    StepValue(State(0x68d84ea2, 0x1688dc85, 0x93aa2577, 0xca7d2dbd), 0x00000000, 50, 0xa420fbb0, 0xb88d6df9, 0xb6fcdc46, 0xcd85b8cb);
    StepValue(State(0xca7d2dbd, 0xcd85b8cb, 0x1688dc85, 0x93aa2577), 0x00000000, 51, 0xfb5d264e, 0xc26df444, 0x88984dbe, 0x561e0689);
  }

  lemma EmptyQuad13()
    ensures var m := EmptyWords();
            Step(Step(Step(Step(State(0x93aa2577, 0x561e0689, 0xcd85b8cb, 0x1688dc85), m, 52), m, 53), m, 54), m, 55)
            == State(0x5625a114, 0x1e77fa61, 0x392ad0d0, 0x3450f42b)
  {
    hide Step;
    StepValue(State(0x93aa2577, 0x561e0689, 0xcd85b8cb, 0x1688dc85), 0x00000000, 52, 0x32fa9f30, 0x2c001e6a, 0x00079a8b, 0x5625a114);
    StepValue(State(0x1688dc85, 0x5625a114, 0x561e0689, 0xcd85b8cb), 0x00000000, 53, 0x2061e1bd, 0xc5f78ad4, 0xde2b5317, 0x3450f42b);
    StepValue(State(0xcd85b8cb, 0x3450f42b, 0x5625a114, 0x561e0689), 0x00000000, 54, 0xebd45c6b, 0xb94a09b3, 0x04d9dca5, 0x392ad0d0);
    StepValue(State(0x561e0689, 0x392ad0d0, 0x3450f42b, 0x5625a114), 0x00000000, 55, 0x8daa2ad0, 0x694c8f2a, 0xe54d2991, 0x1e77fa61);
  }

  lemma EmptyQuad14()
    ensures var m := EmptyWords();
            Step(Step(Step(Step(State(0x5625a114, 0x1e77fa61, 0x392ad0d0, 0x3450f42b), m, 56), m, 57), m, 58), m, 59)
            == State(0x474a9c8c, 0x30130182, 0x36594b14, 0xdfce00bc)
  {
    hide Step;
    StepValue(State(0x5625a114, 0x1e77fa61, 0x392ad0d0, 0x3450f42b), 0x00000000, 56, 0xe6d52b25, 0xaca34a88, 0x28d2a22b, 0x474a9c8c);
    StepValue(State(0x3450f42b, 0x474a9c8c, 0x1e77fa61, 0x392ad0d0), 0x00000000, 57, 0xd9a845ce, 0x0c2620d9, 0x98836430, 0xdfce00bc);
    StepValue(State(0x392ad0d0, 0xdfce00bc, 0x474a9c8c, 0x1e77fa61), 0x00000000, 58, 0xb8849932, 0x94b0ad16, 0x568b4a58, 0x36594b14);
    StepValue(State(0x1e77fa61, 0x36594b14, 0xdfce00bc, 0x474a9c8c), 0x00000000, 59, 0x61336bcb, 0xcdb377cd, 0xf9b9b66e, 0x30130182);
  }

  lemma EmptyQuad15()
    ensures var m := EmptyWords();
            Step(Step(Step(Step(State(0x474a9c8c, 0x30130182, 0x36594b14, 0xdfce00bc), m, 60), m, 61), m, 62), m, 63)
            == State(0x7246fad3, 0x14e45506, 0xff4ea3eb, 0x6e10a476)
  {
    hide Step;
    StepValue(State(0x474a9c8c, 0x30130182, 0x36594b14, 0xdfce00bc), 0x00000000, 60, 0x066ab4d7, 0x4508cfe5, 0x4233f951, 0x7246fad3);
    StepValue(State(0xdfce00bc, 0x7246fad3, 0x30130182, 0x36594b14), 0x00000000, 61, 0xcbf5ff79, 0x68fef26a, 0xfbc9a9a3, 0x6e10a476);
    StepValue(State(0x36594b14, 0x6e10a476, 0x7246fad3, 0x30130182), 0x00000000, 62, 0x9dba04ac, 0xfeeb227b, 0x913dff75, 0xff4ea3eb);
    StepValue(State(0x30130182, 0xff4ea3eb, 0x6e10a476, 0x7246fad3), 0x00000000, 63, 0x91ef0399, 0xad88d8ac, 0x1595b11b, 0x14e45506);
  }

  lemma EmptySteps()
    ensures Steps(IV, EmptyWords(), 64) == State(0x7246fad3, 0x14e45506, 0xff4ea3eb, 0x6e10a476)
  {
    hide Step, Steps, EmptyWords;
    IvState();
    FourSteps(IV, EmptyWords(), 0);
    EmptyQuad0();
    FourSteps(IV, EmptyWords(), 4);
    EmptyQuad1();
    FourSteps(IV, EmptyWords(), 8);
    EmptyQuad2();
    FourSteps(IV, EmptyWords(), 12);
    EmptyQuad3();
    FourSteps(IV, EmptyWords(), 16);
    EmptyQuad4();
    FourSteps(IV, EmptyWords(), 20);
    EmptyQuad5();
    FourSteps(IV, EmptyWords(), 24);
    EmptyQuad6();
    FourSteps(IV, EmptyWords(), 28);
    EmptyQuad7();
    FourSteps(IV, EmptyWords(), 32);
    EmptyQuad8();
    FourSteps(IV, EmptyWords(), 36);
    EmptyQuad9();
    FourSteps(IV, EmptyWords(), 40);
    EmptyQuad10();
    FourSteps(IV, EmptyWords(), 44);
    EmptyQuad11();
    FourSteps(IV, EmptyWords(), 48);
    EmptyQuad12();
    FourSteps(IV, EmptyWords(), 52);
    EmptyQuad13();
    FourSteps(IV, EmptyWords(), 56);
    EmptyQuad14();
    FourSteps(IV, EmptyWords(), 60);
    EmptyQuad15();
  }

  lemma IvState()
    ensures IV == State(0x67452301, 0xefcdab89, 0x98badcfe, 0x10325476)
    ensures Steps(IV, EmptyWords(), 0) == IV
  {
  }

  lemma FirstWord(p: seq<Byte>)
    requires p == [0x80] + Zeros(63)
    ensures LoadLe(p, 0) == 0x80
  {
    assert p[0] == 0x80 && p[1] == 0 && p[2] == 0 && p[3] == 0;
  }

  lemma ZeroWord(p: seq<Byte>, off: nat)
    requires p == [0x80] + Zeros(63) && 1 <= off <= 60
    ensures LoadLe(p, off) == 0
  {
  }

  lemma ZeroByte()
    ensures ByteValues.ToByte(0) == 0
  {
  }

  lemma NoLength(n: nat)
    ensures LeBytes(0, n) == Zeros(n)
  {
    hide ByteValues.ToByte;
    ZeroByte();
    if n != 0 {
      NoLength(n - 1);
    }
  }

  lemma EmptyBlockWords()
    ensures Pad([]) == [0x80] + Zeros(63) && BlockWords(Pad([])) == EmptyWords()
  {
    hide LoadLe, LeBytes;
    var p := Pad([]);
    NoLength(8);
    assert BitLength(0) == Zeros(8);
    assert p == [0x80] + Zeros(63);
    var m := BlockWords(p);
    FirstWord(p);
    forall k | 1 <= k < 16 ensures m[k] == 0 { ZeroWord(p, 4 * k); }
    assert m == EmptyWords();
  }

  lemma EmptySum()
    ensures Sum(IV, State(0x7246fad3, 0x14e45506, 0xff4ea3eb, 0x6e10a476)) == State(0xd98c1dd4, 0x04b2008f, 0x980980e9, 0x7e42f8ec)
  {
    IvState();
  }

  lemma EmptyBytes()
    ensures Digest(State(0xd98c1dd4, 0x04b2008f, 0x980980e9, 0x7e42f8ec)) == EMPTY_DIGEST
  {
  }

  /** The constant is the RFC 1321 digest of the empty message. */
  lemma EmptyDigestIsMd5()
    ensures Md5([]) == EMPTY_DIGEST
  {
    hide Step, Steps, BlockWords, EmptyWords, Sum, Digest, Fold, Compress, Pad, FinalBlocks;
    EmptyBlockWords();
    FoldOne(IV, Pad([]));
    CompressFrame(IV, Pad([]));
    EmptySteps();
    EmptySum();
    EmptyBytes();
  }
}
